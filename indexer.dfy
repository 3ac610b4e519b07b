/**
 * The event stream: every event the subgraph's data sources deliver, routed
 * to its handler. A fatal handler abandons the event's writes and stops
 * indexing; the store then holds what the events before it wrote.
 */
module Indexer {
  import opened Wrappers
  import opened Ids
  import opened Schema
  import opened Storage
  import MorphoHandlers
  import VaultHandlers
  import VaultFactory
  import RewardPrograms

  /** Events of the lending protocol's data source. */
  datatype MorphoEvent =
    | MarketSupply(supply: MorphoHandlers.SupplyEvent)
    | MarketWithdraw(withdraw: MorphoHandlers.WithdrawEvent)
    | MarketBorrow(borrow: MorphoHandlers.BorrowEvent)
    | MarketRepay(repay: MorphoHandlers.RepayEvent)
    | MarketSupplyCollateral(supplyCollateral: MorphoHandlers.SupplyCollateralEvent)
    | MarketWithdrawCollateral(withdrawCollateral: MorphoHandlers.WithdrawCollateralEvent)
    | MarketAccrueInterest(accrual: MorphoHandlers.AccrueInterestEvent)

  /** Events of a vault's data source; the vault is the event's address. */
  datatype VaultEvent =
    | VaultDeposit(deposit: VaultHandlers.DepositEvent)
    | VaultWithdraw(redeem: VaultHandlers.WithdrawEvent)
    | VaultTransfer(transfer: VaultHandlers.TransferEvent)
    | VaultAccrueInterest(accrual: VaultHandlers.AccrueInterestEvent)
    | VaultSetFeeRecipient(setFeeRecipient: VaultHandlers.SetFeeRecipientEvent)

  /** Events of the reward registries. */
  datatype RewardsEvent =
    | EmissionSet(emission: RewardPrograms.RewardsEmissionSetEvent)
    | ProgramRegistered(registration: RewardPrograms.ProgramRegisteredEvent)

  datatype Event =
    | FromMorpho(morpho: MorphoEvent)
    | FromVault(vault: VaultEvent)
    | FromFactory(create: VaultFactory.CreateVaultEvent)
    | FromRewards(rewards: RewardsEvent)

  /** What the handlers need besides the event: the record-id hash and the lending protocol's address. */
  datatype Config = Config(hash: Bytes -> Bytes, morpho: Address)

  function AfterMorphoEvent(s: State, e: MorphoEvent): Result<State> {
    match e
    case MarketSupply(x) => MorphoHandlers.AfterSupply(s, x)
    case MarketWithdraw(x) => MorphoHandlers.AfterWithdraw(s, x)
    case MarketBorrow(x) => MorphoHandlers.AfterBorrow(s, x)
    case MarketRepay(x) => MorphoHandlers.AfterRepay(s, x)
    case MarketSupplyCollateral(x) => MorphoHandlers.AfterSupplyCollateral(s, x)
    case MarketWithdrawCollateral(x) => MorphoHandlers.AfterWithdrawCollateral(s, x)
    case MarketAccrueInterest(x) => MorphoHandlers.AfterAccrueInterest(s, x)
  }

  function AfterVaultEvent(s: State, morpho: Address, e: VaultEvent): Result<State> {
    match e
    case VaultDeposit(x) => VaultHandlers.AfterDeposit(s, x)
    case VaultWithdraw(x) => VaultHandlers.AfterWithdraw(s, x)
    case VaultTransfer(x) => VaultHandlers.AfterTransfer(s, x, morpho)
    case VaultAccrueInterest(x) => VaultHandlers.AfterAccrueInterest(s, x)
    case VaultSetFeeRecipient(x) => VaultHandlers.AfterSetFeeRecipient(s, x)
  }

  function AfterRewardsEvent(s: State, hash: Bytes -> Bytes, e: RewardsEvent): Result<State> {
    match e
    case EmissionSet(x) => RewardPrograms.AfterEmission(s, hash, x)
    case ProgramRegistered(x) => RewardPrograms.AfterProgramRegistered(s, hash, x)
  }

  /** The store after one event, or the failure that stops indexing. */
  function AfterEvent(s: State, cfg: Config, e: Event): Result<State> {
    match e
    case FromMorpho(x) => AfterMorphoEvent(s, x)
    case FromVault(x) => AfterVaultEvent(s, cfg.morpho, x)
    case FromFactory(x) => Ok(VaultFactory.AfterCreateVault(s, x))
    case FromRewards(x) => AfterRewardsEvent(s, cfg.hash, x)
  }

  /** The store after a stream of events, stopping at the first failure. */
  function AfterEvents(s: State, cfg: Config, events: seq<Event>): Result<State>
    decreases |events|
  {
    if events == [] then Ok(s)
    else
      var s1 :- AfterEvent(s, cfg, events[0]);
      AfterEvents(s1, cfg, events[1..])
  }

  /** Every vault created along the stream is created at an address that holds no vault yet. */
  ghost predicate CreatesFresh(s: State, cfg: Config, events: seq<Event>)
    decreases |events|
  {
    events == [] ||
    ((events[0].FromFactory? ==> events[0].create.metaMorpho !in s.vaults) &&
     (AfterEvent(s, cfg, events[0]).Ok? ==> CreatesFresh(AfterEvent(s, cfg, events[0]).value, cfg, events[1..])))
  }

  // ---------------------------------------------------------------------------
  // Invariants of the whole store

  lemma MorphoEventPreservesValid(s: State, e: MorphoEvent)
    requires Valid(s)
    ensures AfterMorphoEvent(s, e).Ok? ==> Valid(AfterMorphoEvent(s, e).value)
  {
    match e
    case MarketSupply(x) => MorphoHandlers.RecordMorphoTxPreservesValid(s, MorphoHandlers.SupplyTx(x));
    case MarketWithdraw(x) => MorphoHandlers.RecordMorphoTxPreservesValid(s, MorphoHandlers.WithdrawTx(x));
    case MarketBorrow(x) => MorphoHandlers.RecordMorphoTxPreservesValid(s, MorphoHandlers.BorrowTx(x));
    case MarketRepay(x) => MorphoHandlers.RecordMorphoTxPreservesValid(s, MorphoHandlers.RepayTx(x));
    case MarketSupplyCollateral(x) => MorphoHandlers.SupplyCollateralPreservesValid(s, x);
    case MarketWithdrawCollateral(x) => MorphoHandlers.WithdrawCollateralPreservesValid(s, x);
    case MarketAccrueInterest(x) => MorphoHandlers.AccrueInterestPreservesValid(s, x);
  }

  lemma MorphoEventPreservesConserved(s: State, e: MorphoEvent)
    requires Valid(s) && Conserved(s)
    ensures AfterMorphoEvent(s, e).Ok? ==> Conserved(AfterMorphoEvent(s, e).value)
  {
    match e
    case MarketSupply(x) => MorphoHandlers.RecordMorphoTxPreservesConserved(s, MorphoHandlers.SupplyTx(x));
    case MarketWithdraw(x) => MorphoHandlers.RecordMorphoTxPreservesConserved(s, MorphoHandlers.WithdrawTx(x));
    case MarketBorrow(x) => MorphoHandlers.RecordMorphoTxPreservesConserved(s, MorphoHandlers.BorrowTx(x));
    case MarketRepay(x) => MorphoHandlers.RecordMorphoTxPreservesConserved(s, MorphoHandlers.RepayTx(x));
    case MarketSupplyCollateral(x) => MorphoHandlers.SupplyCollateralPreservesConserved(s, x);
    case MarketWithdrawCollateral(x) => MorphoHandlers.WithdrawCollateralPreservesConserved(s, x);
    case MarketAccrueInterest(x) => MorphoHandlers.AccrueInterestPreservesConserved(s, x);
  }

  lemma VaultEventPreservesValid(s: State, morpho: Address, e: VaultEvent)
    requires Valid(s)
    ensures AfterVaultEvent(s, morpho, e).Ok? ==> Valid(AfterVaultEvent(s, morpho, e).value)
  {
    match e
    case VaultDeposit(x) => VaultHandlers.RecordVaultTxPreservesValid(s, VaultHandlers.DepositTx(x));
    case VaultWithdraw(x) => VaultHandlers.RecordVaultTxPreservesValid(s, VaultHandlers.WithdrawTx(x));
    case VaultTransfer(x) =>
      if !VaultHandlers.SkippedTransfer(x, morpho) {
        VaultHandlers.TransferEntityPreservesValid(s, x.meta, x.meta.address, x.from, x.to, x.value);
      }
    case VaultAccrueInterest(x) => VaultHandlers.AccrueInterestPreservesValid(s, x);
    case VaultSetFeeRecipient(x) => VaultHandlers.SetFeeRecipientPreservesValid(s, x);
  }

  lemma VaultEventPreservesConserved(s: State, morpho: Address, e: VaultEvent)
    requires VaultHandlers.EntitiesKeyed(s) && Conserved(s)
    ensures AfterVaultEvent(s, morpho, e).Ok? ==> Conserved(AfterVaultEvent(s, morpho, e).value)
  {
    match e
    case VaultDeposit(x) => VaultHandlers.RecordVaultTxPreservesConserved(s, VaultHandlers.DepositTx(x));
    case VaultWithdraw(x) => VaultHandlers.RecordVaultTxPreservesConserved(s, VaultHandlers.WithdrawTx(x));
    case VaultTransfer(x) =>
      if !VaultHandlers.SkippedTransfer(x, morpho) {
        VaultHandlers.TransferEntityPreservesConserved(s, x.meta, x.meta.address, x.from, x.to, x.value);
      }
    case VaultAccrueInterest(x) => VaultHandlers.AccrueInterestPreservesConserved(s, x);
    case VaultSetFeeRecipient(x) => VaultHandlers.SetFeeRecipientPreservesConserved(s, x);
  }

  lemma RewardsEventPreservesValid(s: State, hash: Bytes -> Bytes, e: RewardsEvent)
    requires Valid(s)
    ensures AfterRewardsEvent(s, hash, e).Ok? ==> Valid(AfterRewardsEvent(s, hash, e).value)
  {
    match e
    case EmissionSet(x) => RewardPrograms.EmissionPreservesValid(s, hash, x);
    case ProgramRegistered(x) => RewardPrograms.ProgramRegisteredPreservesValid(s, hash, x);
  }

  lemma RewardsEventPreservesConserved(s: State, hash: Bytes -> Bytes, e: RewardsEvent)
    requires Conserved(s)
    ensures AfterRewardsEvent(s, hash, e).Ok? ==> Conserved(AfterRewardsEvent(s, hash, e).value)
  {
    match e
    case EmissionSet(x) => RewardPrograms.EmissionLeavesLedgers(s, hash, x);
    case ProgramRegistered(x) => RewardPrograms.ProgramRegisteredLeavesLedgers(s, hash, x);
  }

  /** Vault events touch no market. */
  lemma VaultEventLeavesMarkets(s: State, morpho: Address, e: VaultEvent)
    requires VaultHandlers.EntitiesKeyed(s)
    ensures AfterVaultEvent(s, morpho, e).Ok? ==> AfterVaultEvent(s, morpho, e).value.markets == s.markets
  {
    match e
    case VaultDeposit(x) => VaultHandlers.RecordVaultTxLeavesMarketSide(s, VaultHandlers.DepositTx(x));
    case VaultWithdraw(x) => VaultHandlers.RecordVaultTxLeavesMarketSide(s, VaultHandlers.WithdrawTx(x));
    case VaultTransfer(x) =>
      if !VaultHandlers.SkippedTransfer(x, morpho) {
        VaultHandlers.TransferEntityLeavesMarkets(s, x.meta, x.meta.address, x.from, x.to, x.value);
      }
    case VaultAccrueInterest(x) => VaultHandlers.AccrueInterestLeavesMarkets(s, x);
    case VaultSetFeeRecipient(x) =>
  }

  /** Reward events touch no market either. */
  lemma RewardsEventLeavesMarkets(s: State, hash: Bytes -> Bytes, e: RewardsEvent)
    ensures AfterRewardsEvent(s, hash, e).Ok? ==> AfterRewardsEvent(s, hash, e).value.markets == s.markets
  {
    match e
    case EmissionSet(x) => RewardPrograms.EmissionLeavesLedgers(s, hash, x);
    case ProgramRegistered(x) => RewardPrograms.ProgramRegisteredLeavesLedgers(s, hash, x);
  }

  /** Every lending-protocol event keeps each market's borrow assets non-negative. */
  lemma MorphoEventKeepsBorrowAssets(s: State, e: MorphoEvent)
    requires Valid(s) && BorrowAssetsNonNegative(s)
    ensures AfterMorphoEvent(s, e).Ok? ==> BorrowAssetsNonNegative(AfterMorphoEvent(s, e).value)
  {
    match e
    case MarketSupply(x) => MorphoHandlers.RecordMorphoTxKeepsBorrowAssets(s, MorphoHandlers.SupplyTx(x));
    case MarketWithdraw(x) => MorphoHandlers.RecordMorphoTxKeepsBorrowAssets(s, MorphoHandlers.WithdrawTx(x));
    case MarketBorrow(x) => MorphoHandlers.RecordMorphoTxKeepsBorrowAssets(s, MorphoHandlers.BorrowTx(x));
    case MarketRepay(x) => MorphoHandlers.RecordMorphoTxKeepsBorrowAssets(s, MorphoHandlers.RepayTx(x));
    case MarketSupplyCollateral(x) => MorphoHandlers.SupplyCollateralKeepsBorrowAssets(s, x);
    case MarketWithdrawCollateral(x) => MorphoHandlers.WithdrawCollateralKeepsBorrowAssets(s, x);
    case MarketAccrueInterest(x) => MorphoHandlers.AccrueInterestKeepsBorrowAssets(s, x);
  }

  /**
   * Every event keeps each market's borrow assets non-negative: borrows and
   * repayments go through the zero floor, accruals add natural interest and a
   * fee entry without assets, and no other event touches a market.
   */
  lemma EventKeepsBorrowAssets(s: State, cfg: Config, e: Event)
    requires Valid(s) && BorrowAssetsNonNegative(s)
    ensures AfterEvent(s, cfg, e).Ok? ==> BorrowAssetsNonNegative(AfterEvent(s, cfg, e).value)
  {
    match e
    case FromMorpho(x) => MorphoEventKeepsBorrowAssets(s, x);
    case FromVault(x) => VaultEventLeavesMarkets(s, cfg.morpho, x);
    case FromFactory(x) =>
    case FromRewards(x) => RewardsEventLeavesMarkets(s, cfg.hash, x);
  }

  /** Every handler keeps the store well formed. */
  lemma EventPreservesValid(s: State, cfg: Config, e: Event)
    requires Valid(s)
    ensures AfterEvent(s, cfg, e).Ok? ==> Valid(AfterEvent(s, cfg, e).value)
  {
    match e
    case FromMorpho(x) => MorphoEventPreservesValid(s, x);
    case FromVault(x) => VaultEventPreservesValid(s, cfg.morpho, x);
    case FromFactory(x) => VaultFactory.CreateVaultPreservesValid(s, x);
    case FromRewards(x) => RewardsEventPreservesValid(s, cfg.hash, x);
  }

  /**
   * Every handler keeps each share and collateral total equal to the sum over
   * its positions, provided a vault creation does not reuse an address. The
   * reward registries touch no market, position or vault.
   */
  lemma EventPreservesConserved(s: State, cfg: Config, e: Event)
    requires Valid(s) && Conserved(s)
    requires e.FromFactory? ==> e.create.metaMorpho !in s.vaults
    ensures AfterEvent(s, cfg, e).Ok? ==> Conserved(AfterEvent(s, cfg, e).value)
  {
    match e
    case FromMorpho(x) => MorphoEventPreservesConserved(s, x);
    case FromVault(x) => VaultEventPreservesConserved(s, cfg.morpho, x);
    case FromFactory(x) => VaultFactory.CreateVaultPreservesConserved(s, x);
    case FromRewards(x) => RewardsEventPreservesConserved(s, cfg.hash, x);
  }

  /**
   * Folding any stream of events into a well-formed, balanced store whose
   * markets owe no negative borrow assets yields such a store again, as long
   * as no vault address is created twice.
   */
  lemma {:induction false} EventsPreserveInvariants(s: State, cfg: Config, events: seq<Event>)
    requires Valid(s) && Conserved(s) && BorrowAssetsNonNegative(s) && CreatesFresh(s, cfg, events)
    ensures var r := AfterEvents(s, cfg, events);
      r.Ok? ==> Valid(r.value) && Conserved(r.value) && BorrowAssetsNonNegative(r.value)
    decreases |events|
  {
    if events != [] {
      EventPreservesValid(s, cfg, events[0]);
      EventPreservesConserved(s, cfg, events[0]);
      EventKeepsBorrowAssets(s, cfg, events[0]);
      if AfterEvent(s, cfg, events[0]).Ok? {
        EventsPreserveInvariants(AfterEvent(s, cfg, events[0]).value, cfg, events[1..]);
      }
    }
  }

  /** A stream fails exactly when some prefix reaches an event whose handler fails, and then nothing after it is applied. */
  lemma {:induction false} EventsStopAtFailure(s: State, cfg: Config, events: seq<Event>, i: nat)
    requires i < |events| && AfterEvents(s, cfg, events[..i]).Ok?
    requires AfterEvent(AfterEvents(s, cfg, events[..i]).value, cfg, events[i]).Fatal?
    ensures AfterEvents(s, cfg, events).Fatal?
    decreases i
  {
    assert events[..i + 1][..i] == events[..i];
    if i == 0 {
      assert AfterEvents(s, cfg, events[..i]) == Ok(s);
    } else {
      assert events[..i][0] == events[0];
      var s1 := AfterEvent(s, cfg, events[0]).value;
      assert events[..i][1..] == events[1..][..i - 1];
      EventsStopAtFailure(s1, cfg, events[1..], i - 1);
    }
  }

  /** Events can be processed in batches: folding a concatenation folds the first part, then the second. */
  lemma {:induction false} EventsConcat(s: State, cfg: Config, first: seq<Event>, second: seq<Event>)
    ensures AfterEvents(s, cfg, first + second) ==
      (match AfterEvents(s, cfg, first)
       case Ok(s1) => AfterEvents(s1, cfg, second)
       case Fatal(msg) => Fatal(msg))
    decreases |first|
  {
    if first == [] {
      assert first + second == second;
    } else {
      assert (first + second)[0] == first[0];
      assert (first + second)[1..] == first[1..] + second;
      if AfterEvent(s, cfg, first[0]).Ok? {
        EventsConcat(AfterEvent(s, cfg, first[0]).value, cfg, first[1..], second);
      }
    }
  }

  // ---------------------------------------------------------------------------
  // The store

  method DispatchMorpho(store: Store, e: MorphoEvent) returns (r: Result<()>)
    modifies store
    ensures var expected := AfterMorphoEvent(old(store.Model()), e);
      r.Ok? == expected.Ok? && (r.Ok? ==> store.Model() == expected.value)
  {
    match e
    case MarketSupply(x) => r := MorphoHandlers.HandleSupply(store, x);
    case MarketWithdraw(x) => r := MorphoHandlers.HandleWithdraw(store, x);
    case MarketBorrow(x) => r := MorphoHandlers.HandleBorrow(store, x);
    case MarketRepay(x) => r := MorphoHandlers.HandleRepay(store, x);
    case MarketSupplyCollateral(x) => r := MorphoHandlers.HandleSupplyCollateral(store, x);
    case MarketWithdrawCollateral(x) => r := MorphoHandlers.HandleWithdrawCollateral(store, x);
    case MarketAccrueInterest(x) => r := MorphoHandlers.HandleAccrueInterest(store, x);
  }

  method DispatchVault(store: Store, morpho: Address, e: VaultEvent) returns (r: Result<()>)
    modifies store
    ensures var expected := AfterVaultEvent(old(store.Model()), morpho, e);
      r.Ok? == expected.Ok? && (r.Ok? ==> store.Model() == expected.value)
  {
    match e
    case VaultDeposit(x) => r := VaultHandlers.HandleDeposit(store, x);
    case VaultWithdraw(x) => r := VaultHandlers.HandleWithdraw(store, x);
    case VaultTransfer(x) => r := VaultHandlers.HandleTransfer(store, x, morpho);
    case VaultAccrueInterest(x) => r := VaultHandlers.HandleAccrueInterest(store, x);
    case VaultSetFeeRecipient(x) => r := VaultHandlers.HandleSetFeeRecipient(store, x);
  }

  method DispatchRewards(store: Store, hash: Bytes -> Bytes, e: RewardsEvent) returns (r: Result<()>)
    modifies store
    ensures var expected := AfterRewardsEvent(old(store.Model()), hash, e);
      r.Ok? == expected.Ok? && (r.Ok? ==> store.Model() == expected.value)
  {
    match e
    case EmissionSet(x) => r := RewardPrograms.HandleEmission(store, hash, x);
    case ProgramRegistered(x) => r := RewardPrograms.HandleProgramRegistered(store, hash, x);
  }

  /** Dispatches one event to its handler. */
  method Dispatch(store: Store, cfg: Config, e: Event) returns (r: Result<()>)
    modifies store
    ensures var expected := AfterEvent(old(store.Model()), cfg, e);
      r.Ok? == expected.Ok? && (r.Ok? ==> store.Model() == expected.value)
  {
    match e
    case FromMorpho(x) => r := DispatchMorpho(store, x);
    case FromVault(x) => r := DispatchVault(store, cfg.morpho, x);
    case FromFactory(x) => VaultFactory.HandleCreateVault(store, x); r := Ok(());
    case FromRewards(x) => r := DispatchRewards(store, cfg.hash, x);
  }

  /** Handles one event; a failed event's partial writes are discarded. */
  method ProcessEvent(store: Store, cfg: Config, e: Event) returns (r: Result<()>)
    modifies store
    ensures var expected := AfterEvent(old(store.Model()), cfg, e);
      r.Ok? == expected.Ok? &&
      (r.Ok? ==> store.Model() == expected.value) &&
      (r.Fatal? ==> store.Model() == old(store.Model()))
  {
    var saved := store.Model();
    r := Dispatch(store, cfg, e);
    if r.Fatal? {
      store.Restore(saved);
    }
  }
}
