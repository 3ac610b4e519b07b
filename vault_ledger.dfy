/**
 * The vault ledger (handleVaultTx.ts): applies one ledger entry's share and
 * asset deltas to its vault and to the acting user's vault position, then
 * snapshots the vault and the position at the entry's timestamp.
 */
module VaultLedger {
  import opened Wrappers
  import opened Ids
  import opened Sums
  import opened Schema
  import opened Storage
  import opened Initializers
  import opened Snapshots

  /** The store after `handleVaultTx(tx)`; fatal when the entry's vault is unknown. */
  function AfterVaultTx(s: State, tx: VaultTx): Result<State> {
    var vault :- SetupVault(s.vaults, tx.vault);
    var setup :- WithVaultPosition(s, tx.vault, tx.user);
    var (s1, position) := setup;
    var vault' := vault.(totalShares := vault.totalShares + tx.shares, totalAssets := vault.totalAssets + tx.assets);
    var (vaultSnapshots, vaultSnapshot) := WriteVaultSnapshot(s1.vaultSnapshots, vault', tx.timestamp, tx.blockNumber);
    var position' := position.(shares := position.shares + tx.shares);
    var positionSnapshots := WriteVaultPositionSnapshot(s1.vaultPositionSnapshots, position', vaultSnapshot, tx.timestamp, tx.blockNumber).0;
    Ok(s1.(vaults := s1.vaults[vault'.id := vault'],
           vaultPositions := s1.vaultPositions[position'.id := position'],
           vaultSnapshots := vaultSnapshots,
           vaultPositionSnapshots := positionSnapshots))
  }

  // ---------------------------------------------------------------------------
  // What one entry does

  /** The updated vault and acting vault position an entry produces, from the stored ones. */
  function VaultTxEffect(s: State, tx: VaultTx): (Vault, VaultPosition)
    requires tx.vault in s.vaults
  {
    var vault := s.vaults[tx.vault];
    var position := VaultPositionOrZero(s, tx.vault, tx.user);
    (vault.(totalShares := vault.totalShares + tx.shares, totalAssets := vault.totalAssets + tx.assets),
     position.(shares := position.shares + tx.shares))
  }

  /** The position an entry starts from belongs to that vault and user and is stored under `vault ++ user`. */
  lemma VaultPositionOrZeroFields(s: State, vault: Address, user: Address)
    requires VaultPositionsKeyed(s.vaultPositions, s.users, s.vaults)
    ensures var p := VaultPositionOrZero(s, vault, user);
      p.id == VaultPositionId(vault, user) && p.vault == vault && p.user == user &&
      (p.id in s.vaultPositions ==> s.vaultPositions[p.id] == p && user in s.users && vault in s.vaults) &&
      (p.id !in s.vaultPositions ==> p.shares == 0)
  {
    var id := VaultPositionId(vault, user);
    if id in s.vaultPositions {
      ScopedIdInjective(vault, user, s.vaultPositions[id].vault, s.vaultPositions[id].user);
    }
  }

  /**
   * An entry whose vault exists replaces that vault and the acting vault
   * position by their updated copies, registers the user, writes the two
   * snapshots, and changes nothing else.
   */
  lemma VaultTxShape(s: State, tx: VaultTx)
    requires MarketsKeyed(s.markets) && VaultsKeyed(s.vaults, s.users) && VaultPositionsKeyed(s.vaultPositions, s.users, s.vaults)
    requires tx.vault in s.vaults
    ensures var (v, p) := VaultTxEffect(s, tx);
      var (vaultSnapshots, vaultSnapshot) := WriteVaultSnapshot(s.vaultSnapshots, v, tx.timestamp, tx.blockNumber);
      AfterVaultTx(s, tx) == Ok(s.(vaults := s.vaults[tx.vault := v],
                                  vaultPositions := s.vaultPositions[VaultPositionId(tx.vault, tx.user) := p],
                                  users := s.users + {tx.user},
                                  vaultSnapshots := vaultSnapshots,
                                  vaultPositionSnapshots := WriteVaultPositionSnapshot(s.vaultPositionSnapshots, p, vaultSnapshot, tx.timestamp, tx.blockNumber).0))
  {
    SetupVaultPositionResult(s, tx.vault, tx.user);
    var pid := VaultPositionId(tx.vault, tx.user);
    var p := VaultTxEffect(s, tx).1;
    assert s.vaultPositions[pid := VaultPositionOrZero(s, tx.vault, tx.user)][pid := p] == s.vaultPositions[pid := p];
  }

  /**
   * An entry fails exactly when its vault is unknown. Otherwise the vault's
   * share and asset totals grow by exactly the entry's deltas, the acting
   * position's shares (zero for a new position) grow by exactly the share
   * delta, the user is registered, and no other vault, vault position, market,
   * position or ledger record changes.
   */
  lemma VaultTxResult(s: State, tx: VaultTx)
    requires MarketsKeyed(s.markets) && VaultsKeyed(s.vaults, s.users) && VaultPositionsKeyed(s.vaultPositions, s.users, s.vaults)
    ensures var r := AfterVaultTx(s, tx);
      (r.Fatal? <==> tx.vault !in s.vaults) &&
      (r.Ok? ==>
        var s', v, p := r.value, s.vaults[tx.vault], VaultPositionOrZero(s, tx.vault, tx.user);
        var pid := VaultPositionId(tx.vault, tx.user);
        s'.vaults == s.vaults[tx.vault := v.(totalShares := v.totalShares + tx.shares, totalAssets := v.totalAssets + tx.assets)] &&
        s'.vaultPositions == s.vaultPositions[pid := p.(shares := p.shares + tx.shares)] &&
        p.vault == tx.vault && p.user == tx.user &&
        (pid !in s.vaultPositions ==> p.shares == 0) &&
        s'.users == s.users + {tx.user} &&
        s'.markets == s.markets && s'.positions == s.positions &&
        s'.morphoTxs == s.morphoTxs && s'.vaultTxs == s.vaultTxs &&
        s'.marketSnapshots == s.marketSnapshots && s'.positionSnapshots == s.positionSnapshots &&
        s'.rewardPrograms == s.rewardPrograms && s'.morphoFeeRecipient == s.morphoFeeRecipient)
  {
    if tx.vault in s.vaults {
      VaultTxShape(s, tx);
      VaultPositionOrZeroFields(s, tx.vault, tx.user);
    }
  }

  /** Only the acting vault position changes: every other stored vault position is kept as it was. */
  lemma VaultTxKeepsOtherPositions(s: State, tx: VaultTx, id: Bytes)
    requires MarketsKeyed(s.markets) && VaultsKeyed(s.vaults, s.users) && VaultPositionsKeyed(s.vaultPositions, s.users, s.vaults)
    requires id in s.vaultPositions && id != VaultPositionId(tx.vault, tx.user)
    ensures AfterVaultTx(s, tx).Ok? ==> AfterVaultTx(s, tx).value.vaultPositions[id] == s.vaultPositions[id]
  {
    VaultTxResult(s, tx);
  }

  /**
   * Both snapshots are taken after the deltas, at the entry's timestamp, and
   * the vault position snapshot points at the vault snapshot of the same entry.
   */
  lemma VaultTxSnapshots(s: State, tx: VaultTx)
    requires MarketsKeyed(s.markets) && VaultsKeyed(s.vaults, s.users) && VaultPositionsKeyed(s.vaultPositions, s.users, s.vaults)
    requires VaultSnapshotsKeyed(s.vaultSnapshots) && VaultPositionSnapshotsKeyed(s.vaultPositionSnapshots, s.vaultSnapshots)
    requires tx.vault in s.vaults
    ensures AfterVaultTx(s, tx).Ok?
    ensures var s' := AfterVaultTx(s, tx).value;
      var (v, p) := VaultTxEffect(s, tx);
      var vaultSnapshotId := SnapshotId(tx.vault, tx.timestamp);
      var positionSnapshotId := SnapshotId(VaultPositionId(tx.vault, tx.user), tx.timestamp);
      s'.vaultSnapshots == s.vaultSnapshots[vaultSnapshotId :=
        VaultSnapshot(vaultSnapshotId, tx.vault, v.feeRecipient, v.totalShares, v.totalAssets, tx.timestamp, tx.blockNumber)] &&
      s'.vaultPositionSnapshots == s.vaultPositionSnapshots[positionSnapshotId :=
        VaultPositionSnapshot(positionSnapshotId, vaultSnapshotId, tx.user, p.shares, tx.timestamp, tx.blockNumber)]
  {
    VaultTxShape(s, tx);
    VaultPositionOrZeroFields(s, tx.vault, tx.user);
    var (v, p) := VaultTxEffect(s, tx);
    var (vaultSnapshots, vaultSnapshot) := WriteVaultSnapshot(s.vaultSnapshots, v, tx.timestamp, tx.blockNumber);
    var positionSnapshots := WriteVaultPositionSnapshot(s.vaultPositionSnapshots, p, vaultSnapshot, tx.timestamp, tx.blockNumber).0;
    assert AfterVaultTx(s, tx).value.vaultSnapshots == vaultSnapshots;
    assert AfterVaultTx(s, tx).value.vaultPositionSnapshots == positionSnapshots;
    VaultSnapshotCopies(s.vaultSnapshots, v, tx.timestamp, tx.blockNumber);
    VaultPositionSnapshotCopies(s.vaultPositionSnapshots, p, vaultSnapshot, tx.timestamp, tx.blockNumber);
  }

  // ---------------------------------------------------------------------------
  // Invariants

  /**
   * Replacing one vault and one of its positions so that the vault's share
   * total moves by exactly what the position's shares move keeps every vault
   * balanced. `before` is the stored position, or a position with no shares.
   */
  lemma VaultsBalancedReplace(vaults: map<Address, Vault>, vaultPositions: map<Bytes, VaultPosition>,
                              vault': Vault, before: VaultPosition, after: VaultPosition)
    requires (forall k :: k in vaults ==> vaults[k].id == k) && VaultsBalanced(vaults, vaultPositions)
    requires vault'.id in vaults && before.id == after.id
    requires before.vault == vault'.id && after.vault == vault'.id
    requires before.id in vaultPositions ==> vaultPositions[before.id] == before
    requires before.id !in vaultPositions ==> before.shares == 0
    requires vault'.totalShares - vaults[vault'.id].totalShares == after.shares - before.shares
    ensures VaultsBalanced(vaults[vault'.id := vault'], vaultPositions[after.id := after])
  {
    var vaults', positions' := vaults[vault'.id := vault'], vaultPositions[after.id := after];
    forall k | k in vaults'
      ensures VaultBalanced(vaults'[k], positions')
    {
      assert VaultBalanced(vaults[k], vaultPositions);
      TotalUpdate(vaultPositions, SharesIn(vaults'[k].id), after.id, after);
    }
  }

  /** Every entry keeps each vault's share total equal to the sum of its positions' shares. */
  lemma VaultTxPreservesConserved(s: State, tx: VaultTx)
    requires MarketsKeyed(s.markets) && VaultsKeyed(s.vaults, s.users) && VaultPositionsKeyed(s.vaultPositions, s.users, s.vaults)
    requires Conserved(s)
    ensures AfterVaultTx(s, tx).Ok? ==> Conserved(AfterVaultTx(s, tx).value)
  {
    if tx.vault in s.vaults {
      VaultTxShape(s, tx);
      VaultPositionOrZeroFields(s, tx.vault, tx.user);
      var (v, after) := VaultTxEffect(s, tx);
      VaultsBalancedReplace(s.vaults, s.vaultPositions, v, VaultPositionOrZero(s, tx.vault, tx.user), after);
    }
  }

  /** Replacing a vault (keeping its fee recipient) and one of its positions keeps the entity tables keyed. */
  lemma ReplaceVaultAndPositionKeepsValid(s: State, v: Vault, p: VaultPosition)
    requires Valid(s) && v.id in s.vaults && v.feeRecipient == s.vaults[v.id].feeRecipient
    requires p.id == VaultPositionId(p.vault, p.user) && p.user in s.users && p.vault in s.vaults
    ensures Valid(s.(vaults := s.vaults[v.id := v], vaultPositions := s.vaultPositions[p.id := p]))
  {
    var vaults' := s.vaults[v.id := v];
    assert VaultsKeyed(vaults', s.users);
    assert VaultPositionsKeyed(s.vaultPositions[p.id := p], s.users, vaults');
  }

  /** Writing a vault snapshot and a vault position snapshot linked to it keeps the snapshot tables keyed. */
  lemma VaultAndPositionSnapshotsKeepValid(s: State, v: Vault, p: VaultPosition, timestamp: int, blockNumber: int)
    requires Valid(s)
    ensures var (vaultSnapshots, vaultSnapshot) := WriteVaultSnapshot(s.vaultSnapshots, v, timestamp, blockNumber);
      Valid(s.(vaultSnapshots := vaultSnapshots,
               vaultPositionSnapshots := WriteVaultPositionSnapshot(s.vaultPositionSnapshots, p, vaultSnapshot, timestamp, blockNumber).0))
  {
    VaultSnapshotKeepsKeyed(s.vaultSnapshots, s.vaultPositionSnapshots, v, timestamp, blockNumber);
    var (vaultSnapshots, vaultSnapshot) := WriteVaultSnapshot(s.vaultSnapshots, v, timestamp, blockNumber);
    VaultPositionSnapshotKeepsKeyed(s.vaultPositionSnapshots, vaultSnapshots, p, vaultSnapshot, timestamp, blockNumber);
  }

  /** Every entry keeps the store well formed. */
  lemma VaultTxPreservesValid(s: State, tx: VaultTx)
    requires Valid(s)
    ensures AfterVaultTx(s, tx).Ok? ==> Valid(AfterVaultTx(s, tx).value)
  {
    if tx.vault in s.vaults {
      VaultTxShape(s, tx);
      VaultPositionOrZeroFields(s, tx.vault, tx.user);
      var (v, p) := VaultTxEffect(s, tx);
      var s1 := s.(users := s.users + {tx.user});
      UsersGrowKeepsKeyed(s, s1.users);
      ReplaceVaultAndPositionKeepsValid(s1, v, p);
      var s2 := s1.(vaults := s1.vaults[v.id := v], vaultPositions := s1.vaultPositions[p.id := p]);
      VaultAndPositionSnapshotsKeepValid(s2, v, p, tx.timestamp, tx.blockNumber);
    }
  }

  // ---------------------------------------------------------------------------
  // The handler on the store

  /** `handleVaultTx` step by step, from the vault it loads and the position it sets up. */
  lemma VaultTxSteps(s: State, tx: VaultTx, vault: Vault, s1: State, position: VaultPosition)
    requires SetupVault(s.vaults, tx.vault) == Ok(vault)
    requires WithVaultPosition(s, tx.vault, tx.user) == Ok((s1, position))
    ensures var vault' := vault.(totalShares := vault.totalShares + tx.shares, totalAssets := vault.totalAssets + tx.assets);
      var (vaultSnapshots, vaultSnapshot) := WriteVaultSnapshot(s1.vaultSnapshots, vault', tx.timestamp, tx.blockNumber);
      var position' := position.(shares := position.shares + tx.shares);
      AfterVaultTx(s, tx) == Ok(s1.(vaults := s1.vaults[vault'.id := vault'],
                                   vaultPositions := s1.vaultPositions[position'.id := position'],
                                   vaultSnapshots := vaultSnapshots,
                                   vaultPositionSnapshots := WriteVaultPositionSnapshot(s1.vaultPositionSnapshots, position', vaultSnapshot, tx.timestamp, tx.blockNumber).0))
  {
  }

  method HandleVaultTx(store: Store, tx: VaultTx) returns (r: Result<()>)
    modifies store
    ensures var expected := AfterVaultTx(old(store.Model()), tx);
      r.Ok? == expected.Ok? &&
      (r.Ok? ==> store.Model() == expected.value) &&
      (r.Fatal? ==> store.Model() == old(store.Model()))
  {
    ghost var s0 := store.Model();
    var vault :- SetupVault(store.vaults, tx.vault);
    var position :- SetupVaultPosition(store, tx.vault, tx.user);
    ghost var s1 := store.Model();
    assert WithVaultPosition(s0, tx.vault, tx.user) == Ok((s1, position));
    VaultTxSteps(s0, tx, vault, s1, position);

    vault := vault.(totalShares := vault.totalShares + tx.shares, totalAssets := vault.totalAssets + tx.assets);
    store.vaults := store.vaults[vault.id := vault];
    var vaultSnapshot := SnapshotVault(store, vault, tx.timestamp, tx.blockNumber);

    position := position.(shares := position.shares + tx.shares);
    store.vaultPositions := store.vaultPositions[position.id := position];
    var _ := SnapshotVaultPosition(store, position, vaultSnapshot, tx.timestamp, tx.blockNumber);
    return Ok(());
  }
}
