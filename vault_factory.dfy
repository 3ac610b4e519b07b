/**
 * The vault factory (handlers/vault-factory.ts): each `CreateMetaMorpho`
 * event writes a vault record with its underlying asset, no fee recipient
 * and zero totals. The vault handlers then find it with `setupVault`.
 */
module VaultFactory {
  import opened Wrappers
  import opened Ids
  import opened Schema
  import opened Storage
  import opened Initializers
  import opened Sums
  import VaultHandlers

  datatype CreateVaultEvent = CreateVaultEvent(meta: EventMeta, metaMorpho: Address, asset: Address)

  /**
   * `handleCreateVault`: a new record replaces whatever was stored under the
   * vault's address; the lookup of a user of the same address changes nothing.
   */
  function AfterCreateVault(s: State, e: CreateVaultEvent): State {
    s.(vaults := s.vaults[e.metaMorpho := Vault(e.metaMorpho, e.asset, None, 0, 0)])
  }

  /**
   * After creation the vault handlers find the vault, with the event's asset,
   * no fee recipient and zero totals; every other vault and every other table
   * is as before.
   */
  lemma CreatedVaultSetsUp(s: State, e: CreateVaultEvent)
    ensures var r := AfterCreateVault(s, e);
      var setup := SetupVault(r.vaults, e.metaMorpho);
      setup.Ok? && setup.value.id == e.metaMorpho && setup.value.asset == e.asset &&
      setup.value.feeRecipient.None? && setup.value.totalShares == 0 && setup.value.totalAssets == 0 &&
      r.vaults.Keys == s.vaults.Keys + {e.metaMorpho} &&
      (forall v :: v in s.vaults && v != e.metaMorpho ==> r.vaults[v] == s.vaults[v]) &&
      r.users == s.users && r.vaultPositions == s.vaultPositions && r.vaultTxs == s.vaultTxs
  {
  }

  /**
   * A fresh vault has no fee recipient, so an accrual that mints fee shares
   * before one is set is fatal, while one without fee shares sets the asset
   * total.
   */
  lemma AccrualOnNewVault(s: State, c: CreateVaultEvent, a: VaultHandlers.AccrueInterestEvent)
    requires VaultHandlers.EntitiesKeyed(s) && a.meta.address == c.metaMorpho
    ensures var r := VaultHandlers.AfterAccrueInterest(AfterCreateVault(s, c), a);
      (r.Fatal? <==> a.feeShares != 0) &&
      (r.Ok? ==> c.metaMorpho in r.value.vaults &&
                 r.value.vaults[c.metaMorpho].totalAssets == a.newTotalAssets &&
                 r.value.vaults[c.metaMorpho].totalShares == 0)
  {
    var s1 := AfterCreateVault(s, c);
    assert VaultHandlers.EntitiesKeyed(s1) by {
      assert VaultsKeyed(s1.vaults, s1.users);
      assert VaultPositionsKeyed(s1.vaultPositions, s1.users, s1.vaults);
    }
    VaultHandlers.AccrueInterestFails(s1, a);
    VaultHandlers.AccrueInterestSetsTotals(s1, a);
  }

  /**
   * The first deposit into a vault created at a fresh address makes its
   * totals, and the owner's position, exactly the deposited amounts.
   */
  lemma FirstDepositIntoNewVault(s: State, c: CreateVaultEvent, d: VaultHandlers.DepositEvent)
    requires VaultHandlers.EntitiesKeyed(s) && c.metaMorpho !in s.vaults && d.meta.address == c.metaMorpho
    ensures var r, pid := VaultHandlers.AfterDeposit(AfterCreateVault(s, c), d), VaultPositionId(c.metaMorpho, d.owner);
      r.Ok? && c.metaMorpho in r.value.vaults && pid in r.value.vaultPositions &&
      r.value.vaults[c.metaMorpho].totalShares == d.shares &&
      r.value.vaults[c.metaMorpho].totalAssets == d.assets &&
      r.value.vaultPositions[pid].shares == d.shares
  {
    var s1 := AfterCreateVault(s, c);
    assert VaultHandlers.EntitiesKeyed(s1) by {
      assert VaultsKeyed(s1.vaults, s1.users);
      assert VaultPositionsKeyed(s1.vaultPositions, s1.users, s1.vaults);
    }
    var pid := VaultPositionId(c.metaMorpho, d.owner);
    if pid in s.vaultPositions {
      var p := s.vaultPositions[pid];
      ScopedIdInjective(c.metaMorpho, d.owner, p.vault, p.user);
      assert false;
    }
    VaultHandlers.DepositFails(s1, d);
    VaultHandlers.DepositCredits(s1, d);
  }

  lemma CreateVaultPreservesValid(s: State, e: CreateVaultEvent)
    requires Valid(s)
    ensures Valid(AfterCreateVault(s, e))
  {
    var r := AfterCreateVault(s, e);
    assert VaultsKeyed(r.vaults, r.users);
    assert VaultPositionsKeyed(r.vaultPositions, r.users, r.vaults);
  }

  /**
   * Creating a vault at a fresh address keeps every total balanced: no
   * position can name a vault that did not exist, so the new zero total is
   * the sum over its positions. (A second creation at a used address would
   * zero a total that its positions still hold.)
   */
  lemma CreateVaultPreservesConserved(s: State, e: CreateVaultEvent)
    requires VaultPositionsKeyed(s.vaultPositions, s.users, s.vaults) && Conserved(s)
    requires e.metaMorpho !in s.vaults
    ensures Conserved(AfterCreateVault(s, e))
  {
    var r := AfterCreateVault(s, e);
    forall k | k in s.vaultPositions
      ensures SharesIn(e.metaMorpho)(s.vaultPositions[k]) == 0
    {
      assert s.vaultPositions[k].vault in s.vaults;
    }
    TotalZero(s.vaultPositions, SharesIn(e.metaMorpho));
    assert VaultBalanced(r.vaults[e.metaMorpho], r.vaultPositions);
  }

  /** `handleCreateVault` on the store. */
  method HandleCreateVault(store: Store, e: CreateVaultEvent)
    modifies store
    ensures store.Model() == AfterCreateVault(old(store.Model()), e)
  {
    var vault := Vault(e.metaMorpho, e.asset, None, 0, 0);
    store.vaults := store.vaults[e.metaMorpho := vault];
  }
}
