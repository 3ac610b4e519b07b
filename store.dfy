/** The mutable entity store the handlers load from and save to. */
module Storage {
  import opened Wrappers
  import opened Ids
  import opened Schema

  /** The entity store the handlers read and write in place. */
  class Store {
    var markets: map<Bytes, Market>
    var positions: map<Bytes, Position>
    var users: set<Address>
    var vaults: map<Address, Vault>
    var vaultPositions: map<Bytes, VaultPosition>
    var morphoTxs: map<Bytes, MorphoTx>
    var vaultTxs: map<Bytes, VaultTx>
    var marketSnapshots: map<string, MarketSnapshot>
    var positionSnapshots: map<string, PositionSnapshot>
    var vaultSnapshots: map<string, VaultSnapshot>
    var vaultPositionSnapshots: map<string, VaultPositionSnapshot>
    var rewardPrograms: map<Bytes, RewardProgram>
    var morphoFeeRecipient: Option<Address>

    /** The store's current contents. */
    function Model(): State
      reads this
    {
      State(markets, positions, users, vaults, vaultPositions, morphoTxs, vaultTxs,
            marketSnapshots, positionSnapshots, vaultSnapshots, vaultPositionSnapshots,
            rewardPrograms, morphoFeeRecipient)
    }

    constructor (s: State)
      ensures Model() == s
    {
      markets, positions, users, vaults, vaultPositions := s.markets, s.positions, s.users, s.vaults, s.vaultPositions;
      morphoTxs, vaultTxs := s.morphoTxs, s.vaultTxs;
      marketSnapshots, positionSnapshots := s.marketSnapshots, s.positionSnapshots;
      vaultSnapshots, vaultPositionSnapshots := s.vaultSnapshots, s.vaultPositionSnapshots;
      rewardPrograms, morphoFeeRecipient := s.rewardPrograms, s.morphoFeeRecipient;
    }

    /** Puts back a saved copy of the contents: how an abandoned event's writes are discarded. */
    method Restore(s: State)
      modifies this
      ensures Model() == s
    {
      RestoreEntities(s);
      RestoreLedgers(s);
      RestoreSnapshots(s);
    }

    method RestoreEntities(s: State)
      modifies this
      ensures Model() == old(Model()).(markets := s.markets, positions := s.positions, users := s.users,
                                       vaults := s.vaults, vaultPositions := s.vaultPositions)
    {
      markets, positions, users := s.markets, s.positions, s.users;
      vaults, vaultPositions := s.vaults, s.vaultPositions;
    }

    method RestoreLedgers(s: State)
      modifies this
      ensures Model() == old(Model()).(morphoTxs := s.morphoTxs, vaultTxs := s.vaultTxs,
                                       rewardPrograms := s.rewardPrograms, morphoFeeRecipient := s.morphoFeeRecipient)
    {
      morphoTxs, vaultTxs := s.morphoTxs, s.vaultTxs;
      rewardPrograms, morphoFeeRecipient := s.rewardPrograms, s.morphoFeeRecipient;
    }

    method RestoreSnapshots(s: State)
      modifies this
      ensures Model() == old(Model()).(marketSnapshots := s.marketSnapshots, positionSnapshots := s.positionSnapshots,
                                       vaultSnapshots := s.vaultSnapshots, vaultPositionSnapshots := s.vaultPositionSnapshots)
    {
      marketSnapshots, positionSnapshots := s.marketSnapshots, s.positionSnapshots;
      vaultSnapshots, vaultPositionSnapshots := s.vaultSnapshots, s.vaultPositionSnapshots;
    }
  }
}
