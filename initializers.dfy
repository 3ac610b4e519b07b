/**
 * Loading and get-or-create helpers (initializers.ts): markets and vaults
 * must already exist, users and positions are created on first use.
 */
module Initializers {
  import opened Wrappers
  import opened Ids
  import opened Sums
  import opened Schema
  import opened Storage

  // ---------------------------------------------------------------------------
  // Lookups that fail on absence

  /** The stored market, or a fatal error when there is none; never a made-up market. */
  function GetMarket(markets: map<Bytes, Market>, id: Bytes): (r: Result<Market>)
    ensures r.Ok? <==> id in markets
    ensures r.Ok? ==> r.value == markets[id]
  {
    if id in markets then Ok(markets[id]) else Fatal("Market not found")
  }

  /** The stored vault, or a fatal error when there is none. */
  function SetupVault(vaults: map<Address, Vault>, address: Address): (r: Result<Vault>)
    ensures r.Ok? <==> address in vaults
    ensures r.Ok? ==> r.value == vaults[address]
  {
    if address in vaults then Ok(vaults[address]) else Fatal("Vault not found")
  }

  // ---------------------------------------------------------------------------
  // Get-or-create, as functions of the store

  /** The store after `setupUser(address)`: the address is registered, once. */
  function WithUser(s: State, address: Address): State {
    s.(users := s.users + {address})
  }

  /** A position as `setupPosition` creates it: all balances zero. */
  function NewPosition(market: Bytes, user: Address): Position {
    Position(PositionId(market, user), user, market, 0, 0, 0)
  }

  /** The store after `setupPosition(market, user)`, and the position it returns. */
  function WithPosition(s: State, market: Bytes, user: Address): (State, Position) {
    var id := PositionId(market, user);
    if id in s.positions then (s, s.positions[id])
    else
      var s1 := WithUser(s, user);
      var position := NewPosition(market, user);
      (s1.(positions := s1.positions[id := position]), position)
  }

  /** The store after `setupVaultPosition(vault, user)`, and the position it returns. */
  function WithVaultPosition(s: State, vault: Address, user: Address): Result<(State, VaultPosition)> {
    var id := VaultPositionId(vault, user);
    if id in s.vaultPositions then Ok((s, s.vaultPositions[id]))
    else
      var loaded :- SetupVault(s.vaults, vault);
      var s1 := WithUser(s, user);
      var position := VaultPosition(id, loaded.id, user, 0);
      Ok((s1.(vaultPositions := s1.vaultPositions[id := position]), position))
  }

  /** The position a handler starts from: the stored one, or a zero one. */
  function PositionOrZero(s: State, market: Bytes, user: Address): Position {
    var id := PositionId(market, user);
    if id in s.positions then s.positions[id] else NewPosition(market, user)
  }

  function VaultPositionOrZero(s: State, vault: Address, user: Address): VaultPosition {
    var id := VaultPositionId(vault, user);
    if id in s.vaultPositions then s.vaultPositions[id] else VaultPosition(id, vault, user, 0)
  }

  // ---------------------------------------------------------------------------
  // Properties

  /** `setupUser` is idempotent: at most one user per address, and only the registry changes. */
  lemma SetupUserIdempotent(s: State, address: Address)
    ensures WithUser(WithUser(s, address), address) == WithUser(s, address)
    ensures WithUser(s, address) == s.(users := s.users + {address})
    ensures address in s.users ==> WithUser(s, address) == s
  {
  }

  /**
   * `setupPosition` returns the position stored under `market ++ user`: the
   * existing record unchanged, or a fresh zero record for that market and user.
   * Only the position table and the user registry can change.
   */
  lemma SetupPositionResult(s: State, market: Bytes, user: Address)
    requires PositionsKeyed(s.positions, s.users, s.markets)
    ensures var (s', p) := WithPosition(s, market, user);
      p.id == PositionId(market, user) && p.market == market && p.user == user &&
      p == PositionOrZero(s, market, user) &&
      s' == s.(users := s.users + {user}, positions := s.positions[p.id := p])
  {
    var id := PositionId(market, user);
    if id in s.positions {
      var p := s.positions[id];
      ScopedIdInjective(market, user, p.market, p.user);
      assert s.positions[id := p] == s.positions;
      assert s.users + {user} == s.users;
    }
  }

  /** The position a handler starts from belongs to that market and user and is stored under `market ++ user`. */
  lemma PositionOrZeroFields(s: State, market: Bytes, user: Address)
    requires PositionsKeyed(s.positions, s.users, s.markets)
    ensures var p := PositionOrZero(s, market, user);
      p.id == PositionId(market, user) && p.market == market && p.user == user &&
      (p.id in s.positions ==> s.positions[p.id] == p && user in s.users && market in s.markets) &&
      (p.id !in s.positions ==> p.supplyShares == 0 && p.borrowShares == 0 && p.collateral == 0)
  {
    var id := PositionId(market, user);
    if id in s.positions {
      ScopedIdInjective(market, user, s.positions[id].market, s.positions[id].user);
    }
  }

  /** An existing position is returned as stored and nothing is written; a new one starts at zero. */
  lemma SetupPositionLoadOrCreate(s: State, market: Bytes, user: Address)
    ensures var (s', p) := WithPosition(s, market, user);
      (PositionId(market, user) in s.positions ==> s' == s && p == s.positions[PositionId(market, user)]) &&
      (PositionId(market, user) !in s.positions ==> p.supplyShares == 0 && p.borrowShares == 0 && p.collateral == 0)
  {
  }

  /** Running `setupPosition` twice is the same as running it once. */
  lemma SetupPositionIdempotent(s: State, market: Bytes, user: Address)
    ensures var (s1, p1) := WithPosition(s, market, user);
      WithPosition(s1, market, user) == (s1, p1)
  {
  }

  /**
   * `setupVaultPosition` returns the position stored under `vault ++ user`:
   * the existing one unchanged, or a fresh zero one, which needs the vault to
   * exist. It fails exactly when the vault is unknown.
   */
  lemma SetupVaultPositionResult(s: State, vault: Address, user: Address)
    requires MarketsKeyed(s.markets) && VaultsKeyed(s.vaults, s.users)
    requires VaultPositionsKeyed(s.vaultPositions, s.users, s.vaults)
    ensures var r := WithVaultPosition(s, vault, user);
      (r.Fatal? <==> vault !in s.vaults) &&
      (r.Ok? ==>
        var (s', p) := r.value;
        p.id == VaultPositionId(vault, user) && p.vault == vault && p.user == user &&
        p == VaultPositionOrZero(s, vault, user) &&
        s' == s.(users := s.users + {user}, vaultPositions := s.vaultPositions[p.id := p]))
  {
    var id := VaultPositionId(vault, user);
    if id in s.vaultPositions {
      var p := s.vaultPositions[id];
      ScopedIdInjective(vault, user, p.vault, p.user);
      assert s.vaultPositions[id := p] == s.vaultPositions;
      assert s.users + {user} == s.users;
    }
  }

  lemma SetupVaultPositionLoadOrCreate(s: State, vault: Address, user: Address)
    requires VaultsKeyed(s.vaults, s.users)
    ensures var r := WithVaultPosition(s, vault, user);
      (VaultPositionId(vault, user) in s.vaultPositions ==> r == Ok((s, s.vaultPositions[VaultPositionId(vault, user)]))) &&
      (VaultPositionId(vault, user) !in s.vaultPositions && vault in s.vaults ==>
        r.Ok? && r.value.1 == VaultPosition(VaultPositionId(vault, user), vault, user, 0))
  {
  }

  lemma SetupVaultPositionIdempotent(s: State, vault: Address, user: Address)
    ensures var r := WithVaultPosition(s, vault, user);
      r.Ok? ==> WithVaultPosition(r.value.0, vault, user) == r
  {
  }

  // Table-level steps of the invariant proofs

  lemma UsersGrowKeepsKeyed(s: State, users: set<Address>)
    requires Valid(s) && s.users <= users
    ensures Valid(s.(users := users))
  {
    assert VaultsKeyed(s.vaults, users);
    assert PositionsKeyed(s.positions, users, s.markets);
    assert VaultPositionsKeyed(s.vaultPositions, users, s.vaults);
  }

  lemma PositionsKeyedInsert(positions: map<Bytes, Position>, users: set<Address>, markets: map<Bytes, Market>, p: Position)
    requires PositionsKeyed(positions, users, markets)
    requires p.id == PositionId(p.market, p.user) && p.user in users && p.market in markets
    ensures PositionsKeyed(positions[p.id := p], users, markets)
  {
  }

  lemma VaultPositionsKeyedInsert(vaultPositions: map<Bytes, VaultPosition>, users: set<Address>, vaults: map<Address, Vault>, p: VaultPosition)
    requires VaultPositionsKeyed(vaultPositions, users, vaults)
    requires p.id == VaultPositionId(p.vault, p.user) && p.user in users && p.vault in vaults
    ensures VaultPositionsKeyed(vaultPositions[p.id := p], users, vaults)
  {
  }

  /** Adding a position that holds nothing leaves every market total balanced. */
  lemma MarketsBalancedInsertZero(markets: map<Bytes, Market>, positions: map<Bytes, Position>, p: Position)
    requires MarketsBalanced(markets, positions)
    requires p.id !in positions && p.supplyShares == 0 && p.borrowShares == 0 && p.collateral == 0
    ensures MarketsBalanced(markets, positions[p.id := p])
  {
    forall m | m in markets
      ensures MarketBalanced(markets[m], positions[p.id := p])
    {
      var mk := markets[m];
      assert MarketBalanced(mk, positions);
      TotalUpdate(positions, SupplySharesIn(mk.id), p.id, p);
      TotalUpdate(positions, BorrowSharesIn(mk.id), p.id, p);
      TotalUpdate(positions, CollateralIn(mk.id), p.id, p);
    }
  }

  /** Adding a vault position with no shares leaves every vault total balanced. */
  lemma VaultsBalancedInsertZero(vaults: map<Address, Vault>, vaultPositions: map<Bytes, VaultPosition>, p: VaultPosition)
    requires VaultsBalanced(vaults, vaultPositions)
    requires p.id !in vaultPositions && p.shares == 0
    ensures VaultsBalanced(vaults, vaultPositions[p.id := p])
  {
    forall v | v in vaults
      ensures VaultBalanced(vaults[v], vaultPositions[p.id := p])
    {
      TotalUpdate(vaultPositions, SharesIn(vaults[v].id), p.id, p);
    }
  }

  /** Registering a user keeps the store well formed. */
  lemma SetupUserPreservesValid(s: State, user: Address)
    requires Valid(s)
    ensures Valid(WithUser(s, user))
  {
    UsersGrowKeepsKeyed(s, s.users + {user});
  }

  lemma SetupPositionPreservesValid(s: State, market: Bytes, user: Address)
    requires Valid(s) && market in s.markets
    ensures Valid(WithPosition(s, market, user).0)
  {
    var id := PositionId(market, user);
    if id !in s.positions {
      var s1 := WithUser(s, user);
      UsersGrowKeepsKeyed(s, s1.users);
      var p := NewPosition(market, user);
      PositionsKeyedInsert(s1.positions, s1.users, s1.markets, p);
      assert WithPosition(s, market, user).0 == s1.(positions := s1.positions[id := p]);
    }
  }

  lemma SetupVaultPositionPreservesValid(s: State, vault: Address, user: Address)
    requires Valid(s)
    ensures WithVaultPosition(s, vault, user).Ok? ==> Valid(WithVaultPosition(s, vault, user).value.0)
  {
    var id := VaultPositionId(vault, user);
    if id !in s.vaultPositions && vault in s.vaults {
      var s1 := WithUser(s, user);
      UsersGrowKeepsKeyed(s, s1.users);
      var p := VaultPosition(id, vault, user, 0);
      VaultPositionsKeyedInsert(s1.vaultPositions, s1.users, s1.vaults, p);
      assert WithVaultPosition(s, vault, user).value.0 == s1.(vaultPositions := s1.vaultPositions[id := p]);
    }
  }

  /** A freshly created position holds nothing, so every market total still balances. */
  lemma SetupPositionPreservesConserved(s: State, market: Bytes, user: Address)
    requires Conserved(s)
    ensures Conserved(WithPosition(s, market, user).0)
  {
    if PositionId(market, user) !in s.positions {
      MarketsBalancedInsertZero(s.markets, s.positions, NewPosition(market, user));
    }
  }

  /** A freshly created vault position holds no shares, so every vault total still balances. */
  lemma SetupVaultPositionPreservesConserved(s: State, vault: Address, user: Address)
    requires Conserved(s)
    ensures WithVaultPosition(s, vault, user).Ok? ==> Conserved(WithVaultPosition(s, vault, user).value.0)
  {
    var id := VaultPositionId(vault, user);
    if id !in s.vaultPositions && vault in s.vaults {
      VaultsBalancedInsertZero(s.vaults, s.vaultPositions, VaultPosition(id, s.vaults[vault].id, user, 0));
    }
  }

  // ---------------------------------------------------------------------------
  // The same operations on the store

  method SetupUser(store: Store, address: Address) returns (user: Address)
    modifies store
    ensures user == address
    ensures store.Model() == WithUser(old(store.Model()), address)
  {
    if address !in store.users {
      store.users := store.users + {address};
    }
    user := address;
  }

  method SetupPosition(store: Store, market: Bytes, user: Address) returns (position: Position)
    modifies store
    ensures (store.Model(), position) == WithPosition(old(store.Model()), market, user)
  {
    var id := PositionId(market, user);
    if id in store.positions {
      position := store.positions[id];
      return;
    }
    var userId := SetupUser(store, user);
    position := Position(id, userId, market, 0, 0, 0);
    store.positions := store.positions[id := position];
  }

  method SetupVaultPosition(store: Store, vault: Address, user: Address) returns (r: Result<VaultPosition>)
    modifies store
    ensures var expected := WithVaultPosition(old(store.Model()), vault, user);
      r.Ok? == expected.Ok? &&
      (r.Ok? ==> (store.Model(), r.value) == expected.value) &&
      (r.Fatal? ==> store.Model() == old(store.Model()))
  {
    var id := VaultPositionId(vault, user);
    if id in store.vaultPositions {
      return Ok(store.vaultPositions[id]);
    }
    var loaded :- SetupVault(store.vaults, vault);
    var userId := SetupUser(store, user);
    var position := VaultPosition(id, loaded.id, userId, 0);
    store.vaultPositions := store.vaultPositions[id := position];
    return Ok(position);
  }
}
