/** The FreedomPath store of `freedompath/src/lib/store.ts`: assets,
    liabilities, monthly income/expense entries and user settings, with
    add/update/delete actions, the shallow merge of a persisted state on
    rehydration, and the selector hooks that feed the FIRE calculators of
    `FireFinances`. Generated ids and the current time are parameters. */
module FireStore {
  import opened Common
  import opened FireFinances

  datatype UserSettings = UserSettings(
    currency: string,
    locale: string,
    withdrawalRate: real,
    expectedReturn: real,
    currentAge: real,
    targetRetirementAge: real)

  /** `defaultSettings` */
  const DefaultSettings: UserSettings := UserSettings("USD", "en-US", 0.04, 0.07, 30.0, 65.0)

  /** `Partial<UserSettings>` */
  datatype SettingsPatch = SettingsPatch(
    currency: Option<string>,
    locale: Option<string>,
    withdrawalRate: Option<real>,
    expectedReturn: Option<real>,
    currentAge: Option<real>,
    targetRetirementAge: Option<real>)

  /** `{ ...settings, ...patch }` */
  function PatchSettings(s: UserSettings, p: SettingsPatch): UserSettings {
    UserSettings(p.currency.GetOr(s.currency), p.locale.GetOr(s.locale), p.withdrawalRate.GetOr(s.withdrawalRate),
                 p.expectedReturn.GetOr(s.expectedReturn), p.currentAge.GetOr(s.currentAge),
                 p.targetRetirementAge.GetOr(s.targetRetirementAge))
  }

  /** The data the store owns. */
  datatype AppState = AppState(assets: seq<Asset>, liabilities: seq<Liability>, monthlyEntries: seq<MonthlyEntry>,
                               settings: UserSettings)

  function InitialState(): AppState {
    AppState([], [], [], DefaultSettings)
  }

  function AssetId(a: Asset): string { a.id }

  function LiabilityId(l: Liability): string { l.id }

  function EntryId(e: MonthlyEntry): string { e.id }

  /** What `addAsset` is given: an asset without id and timestamp. */
  datatype AssetInput = AssetInput(name: string, kind: AssetType, value: real)

  /** What `updateAsset` may change (a given `lastUpdated` is overwritten anyway). */
  datatype AssetPatch = AssetPatch(name: Option<string>, kind: Option<AssetType>, value: Option<real>)

  datatype LiabilityInput = LiabilityInput(name: string, kind: LiabilityType, value: real)

  datatype LiabilityPatch = LiabilityPatch(name: Option<string>, kind: Option<LiabilityType>, value: Option<real>)

  datatype EntryInput = EntryInput(month: string, income: real, expenses: real)

  datatype EntryPatch = EntryPatch(month: Option<string>, income: Option<real>, expenses: Option<real>)

  function PatchAsset(a: Asset, p: AssetPatch, now: string): Asset {
    Asset(a.id, p.name.GetOr(a.name), p.kind.GetOr(a.kind), p.value.GetOr(a.value), now)
  }

  function PatchLiability(l: Liability, p: LiabilityPatch, now: string): Liability {
    Liability(l.id, p.name.GetOr(l.name), p.kind.GetOr(l.kind), p.value.GetOr(l.value), now)
  }

  function PatchEntry(e: MonthlyEntry, p: EntryPatch): MonthlyEntry {
    MonthlyEntry(e.id, p.month.GetOr(e.month), p.income.GetOr(e.income), p.expenses.GetOr(e.expenses))
  }

  // ---------------------------------------------------------------------------
  // Transitions
  // ---------------------------------------------------------------------------

  function AfterAddAsset(s: AppState, input: AssetInput, id: string, now: string): AppState {
    s.(assets := s.assets + [Asset(id, input.name, input.kind, input.value, now)])
  }

  /** `updateAsset`: every asset with the id is patched and stamped with the time. */
  function AfterUpdateAsset(s: AppState, id: string, updates: AssetPatch, now: string): AppState {
    s.(assets := MapWhere(s.assets, AssetId, id, a => PatchAsset(a, updates, now)))
  }

  function AfterDeleteAsset(s: AppState, id: string): AppState {
    s.(assets := Remove(s.assets, AssetId, id))
  }

  function AfterAddLiability(s: AppState, input: LiabilityInput, id: string, now: string): AppState {
    s.(liabilities := s.liabilities + [Liability(id, input.name, input.kind, input.value, now)])
  }

  function AfterUpdateLiability(s: AppState, id: string, updates: LiabilityPatch, now: string): AppState {
    s.(liabilities := MapWhere(s.liabilities, LiabilityId, id, l => PatchLiability(l, updates, now)))
  }

  function AfterDeleteLiability(s: AppState, id: string): AppState {
    s.(liabilities := Remove(s.liabilities, LiabilityId, id))
  }

  function AfterAddMonthlyEntry(s: AppState, input: EntryInput, id: string): AppState {
    s.(monthlyEntries := s.monthlyEntries + [MonthlyEntry(id, input.month, input.income, input.expenses)])
  }

  function AfterUpdateMonthlyEntry(s: AppState, id: string, updates: EntryPatch): AppState {
    s.(monthlyEntries := MapWhere(s.monthlyEntries, EntryId, id, e => PatchEntry(e, updates)))
  }

  function AfterDeleteMonthlyEntry(s: AppState, id: string): AppState {
    s.(monthlyEntries := Remove(s.monthlyEntries, EntryId, id))
  }

  function AfterUpdateSettings(s: AppState, updates: SettingsPatch): AppState {
    s.(settings := PatchSettings(s.settings, updates))
  }

  /** A persisted state: each top-level field present or not. */
  datatype PersistedApp = PersistedApp(assets: Option<seq<Asset>>, liabilities: Option<seq<Liability>>,
                                       monthlyEntries: Option<seq<MonthlyEntry>>, settings: Option<UserSettings>)

  /** The default shallow merge of a persisted state over the current one. */
  function Merge(persisted: PersistedApp, current: AppState): AppState {
    AppState(persisted.assets.GetOr(current.assets), persisted.liabilities.GetOr(current.liabilities),
             persisted.monthlyEntries.GetOr(current.monthlyEntries), persisted.settings.GetOr(current.settings))
  }

  function Snapshot(s: AppState): PersistedApp {
    PersistedApp(Some(s.assets), Some(s.liabilities), Some(s.monthlyEntries), Some(s.settings))
  }

  /** Rehydrating a saved state restores it, whatever the current state. */
  lemma MergeRestoresSnapshot(saved: AppState, current: AppState)
    ensures Merge(Snapshot(saved), current) == saved
  {
  }

  // ---------------------------------------------------------------------------
  // Selectors
  // ---------------------------------------------------------------------------

  /** The asset kinds counted as invested. */
  predicate IsInvested(kind: AssetType) {
    kind == Stocks || kind == Bonds || kind == Crypto
  }

  /** `useInvestedAssets`: the values of the stock, bond and crypto assets. */
  function InvestedAssets(assets: seq<Asset>): real {
    if assets == [] then 0.0
    else
      var a := assets[|assets| - 1];
      InvestedAssets(assets[..|assets| - 1]) + (if IsInvested(a.kind) then a.value else 0.0)
  }

  /** With no negative values, the invested assets are a part of all the assets. */
  lemma {:induction false} InvestedWithinTotal(assets: seq<Asset>)
    requires forall i :: 0 <= i < |assets| ==> 0.0 <= assets[i].value
    ensures 0.0 <= InvestedAssets(assets) <= TotalAssets(assets)
  {
    if assets != [] {
      InvestedWithinTotal(assets[..|assets| - 1]);
    }
  }

  /** With only invested kinds, every asset counts. */
  lemma {:induction false} AllInvested(assets: seq<Asset>)
    requires forall i :: 0 <= i < |assets| ==> IsInvested(assets[i].kind)
    ensures InvestedAssets(assets) == TotalAssets(assets)
  {
    if assets != [] {
      AllInvested(assets[..|assets| - 1]);
    }
  }

  /** `useNetWorth` */
  function NetWorthOf(s: AppState): real {
    NetWorth(s.assets, s.liabilities)
  }

  /** `useFreedomScore` */
  function FreedomScoreOf(s: AppState): real {
    FreedomScore(InvestedAssets(s.assets), AverageMonthlyExpenses(s.monthlyEntries), s.settings.withdrawalRate)
  }

  /** `useFIRENumber` */
  function FIRENumberOf(s: AppState): real
    requires s.settings.withdrawalRate != 0.0
  {
    FIRENumber(AverageMonthlyExpenses(s.monthlyEntries), s.settings.withdrawalRate)
  }

  /** `useFIRETargets` */
  function FIRETargetsOf(s: AppState): FIRETargets {
    CalculateFIRETargets(AverageMonthlyExpenses(s.monthlyEntries), s.settings.currentAge,
                         s.settings.targetRetirementAge, s.settings.expectedReturn)
  }

  /** `useYearsToFIRE`: years from the net worth to the FIRE number, saving
      the average income less the average expenses each month. */
  method YearsToFIREOf(s: AppState) returns (r: FireYears)
    requires s.settings.withdrawalRate != 0.0
    ensures r == FireYearsOf(NetWorthOf(s),
                             AverageMonthlyIncome(s.monthlyEntries) - AverageMonthlyExpenses(s.monthlyEntries),
                             FIRENumberOf(s), s.settings.expectedReturn)
    ensures NetWorthOf(s) >= FIRENumberOf(s) <==> r == Years(0)
  {
    var monthlySavings := AverageMonthlyIncome(s.monthlyEntries) - AverageMonthlyExpenses(s.monthlyEntries);
    r := YearsToFIRE(NetWorthOf(s), monthlySavings, FIRENumberOf(s), s.settings.expectedReturn);
    FireYearsOfMeaning(NetWorthOf(s), monthlySavings, FIRENumberOf(s), s.settings.expectedReturn);
  }

  // ---------------------------------------------------------------------------
  // Properties
  // ---------------------------------------------------------------------------

  /** A fresh store: no data, net worth 0, a full freedom score (no expenses
      recorded) and a FIRE number of 0. */
  lemma InitialStateFacts()
    ensures NetWorthOf(InitialState()) == 0.0
    ensures FreedomScoreOf(InitialState()) == 100.0
    ensures FIRENumberOf(InitialState()) == 0.0
  {
  }

  /** The targets always use the 4% rule: they ignore the withdrawal-rate
      setting, and agree with the FIRE number only when that setting is 4%. */
  lemma TargetsIgnoreWithdrawalRate(s: AppState, rate: real)
    ensures FIRETargetsOf(s.(settings := s.settings.(withdrawalRate := rate))) == FIRETargetsOf(s)
    ensures s.settings.withdrawalRate == 0.04 ==> FIRETargetsOf(s).regularFIRE == FIRENumberOf(s)
  {
  }

  /** With the default 4% withdrawal rate the FIRE number is 25 years of expenses. */
  lemma DefaultFIRENumber(s: AppState)
    requires s.settings == DefaultSettings
    ensures FIRENumberOf(s) == 25.0 * (AverageMonthlyExpenses(s.monthlyEntries) * 12.0)
  {
    FIRENumberAtFourPercent(AverageMonthlyExpenses(s.monthlyEntries));
  }

  /** Adding an asset raises net worth by its value; adding a liability lowers it by its value. */
  lemma NetWorthAfterAdd(s: AppState, asset: AssetInput, liability: LiabilityInput, id: string, now: string)
    ensures NetWorthOf(AfterAddAsset(s, asset, id, now)) == NetWorthOf(s) + asset.value
    ensures NetWorthOf(AfterAddLiability(s, liability, id, now)) == NetWorthOf(s) - liability.value
  {
    NetWorthAfterAdding(s.assets, s.liabilities, Asset(id, asset.name, asset.kind, asset.value, now),
                        Liability(id, liability.name, liability.kind, liability.value, now));
  }

  /** Deleting what was just added under a fresh id restores the state. */
  lemma DeleteUndoesAdd(s: AppState, asset: AssetInput, liability: LiabilityInput, entry: EntryInput, id: string, now: string)
    requires forall i :: 0 <= i < |s.assets| ==> s.assets[i].id != id
    requires forall i :: 0 <= i < |s.liabilities| ==> s.liabilities[i].id != id
    requires forall i :: 0 <= i < |s.monthlyEntries| ==> s.monthlyEntries[i].id != id
    ensures AfterDeleteAsset(AfterAddAsset(s, asset, id, now), id) == s
    ensures AfterDeleteLiability(AfterAddLiability(s, liability, id, now), id) == s
    ensures AfterDeleteMonthlyEntry(AfterAddMonthlyEntry(s, entry, id), id) == s
  {
    RemoveAppended(s.assets, Asset(id, asset.name, asset.kind, asset.value, now), AssetId);
    RemoveAppended(s.liabilities, Liability(id, liability.name, liability.kind, liability.value, now), LiabilityId);
    RemoveAppended(s.monthlyEntries, MonthlyEntry(id, entry.month, entry.income, entry.expenses), EntryId);
  }

  /** Deleting an id no element carries changes nothing. */
  lemma DeleteUnknownIsNoOp(s: AppState, id: string)
    requires forall i :: 0 <= i < |s.assets| ==> s.assets[i].id != id
    requires forall i :: 0 <= i < |s.liabilities| ==> s.liabilities[i].id != id
    requires forall i :: 0 <= i < |s.monthlyEntries| ==> s.monthlyEntries[i].id != id
    ensures AfterDeleteAsset(s, id) == s
    ensures AfterDeleteLiability(s, id) == s
    ensures AfterDeleteMonthlyEntry(s, id) == s
  {
    RemoveAbsent(s.assets, AssetId, id);
    RemoveAbsent(s.liabilities, LiabilityId, id);
    RemoveAbsent(s.monthlyEntries, EntryId, id);
  }

  /** `addMonthlyEntry` does not look for an entry of the same month: a
      second entry for a month sits beside the first, and both count in the
      averages. */
  lemma DuplicateMonthsAllowed(s: AppState, id: string)
    requires s.monthlyEntries == [MonthlyEntry("e1", "2026-01", 5000.0, 3000.0)]
    ensures var r := AfterAddMonthlyEntry(s, EntryInput("2026-01", 7000.0, 3000.0), id);
            && |r.monthlyEntries| == 2
            && r.monthlyEntries[0].month == r.monthlyEntries[1].month
            && AverageMonthlyIncome(r.monthlyEntries) == 6000.0
  {
    var r := AfterAddMonthlyEntry(s, EntryInput("2026-01", 7000.0, 3000.0), id);
    assert r.monthlyEntries[..1] == s.monthlyEntries;
    assert s.monthlyEntries[..0] == [];
    assert TotalIncome(s.monthlyEntries) == 5000.0;
  }

  /** Replacing one asset changes the total by the difference of the values. */
  lemma {:induction false} TotalAssetsReplace(assets: seq<Asset>, i: nat, a: Asset)
    requires i < |assets|
    ensures TotalAssets(assets[i := a]) == TotalAssets(assets) - assets[i].value + a.value
  {
    var n := |assets|;
    var init := assets[..n - 1];
    assert assets[i := a][..n - 1] == if i == n - 1 then init else init[i := a];
    if i < n - 1 {
      TotalAssetsReplace(init, i, a);
    }
  }

  /** With unique ids, changing one asset's value moves net worth by exactly
      the change; the asset is stamped with the update time. */
  lemma NetWorthAfterAssetUpdate(s: AppState, i: nat, value: real, now: string)
    requires i < |s.assets| && UniqueKeys(s.assets, AssetId)
    ensures var r := AfterUpdateAsset(s, s.assets[i].id, AssetPatch(None, None, Some(value)), now);
            && r.assets[i] == s.assets[i].(value := value, lastUpdated := now)
            && NetWorthOf(r) == NetWorthOf(s) - s.assets[i].value + value
  {
    var p := AssetPatch(None, None, Some(value));
    MapWhereAt(s.assets, AssetId, i, a => PatchAsset(a, p, now));
    TotalAssetsReplace(s.assets, i, PatchAsset(s.assets[i], p, now));
  }

  /** Each update action patches exactly the elements of its own list that
      carry the id (assets and liabilities stamped with the time, entries
      not) and leaves every other element, list and setting as it was. */
  lemma UpdateEffects(s: AppState, id: string, now: string, a: AssetPatch, l: LiabilityPatch, e: EntryPatch)
    ensures var r := AfterUpdateAsset(s, id, a, now);
            && |r.assets| == |s.assets|
            && (forall i :: 0 <= i < |s.assets| ==>
                  r.assets[i] == if s.assets[i].id == id
                                 then s.assets[i].(name := a.name.GetOr(s.assets[i].name), kind := a.kind.GetOr(s.assets[i].kind),
                                                   value := a.value.GetOr(s.assets[i].value), lastUpdated := now)
                                 else s.assets[i])
            && r.liabilities == s.liabilities && r.monthlyEntries == s.monthlyEntries && r.settings == s.settings
    ensures var r := AfterUpdateLiability(s, id, l, now);
            && |r.liabilities| == |s.liabilities|
            && (forall i :: 0 <= i < |s.liabilities| ==>
                  r.liabilities[i] == if s.liabilities[i].id == id
                                      then s.liabilities[i].(name := l.name.GetOr(s.liabilities[i].name),
                                                             kind := l.kind.GetOr(s.liabilities[i].kind),
                                                             value := l.value.GetOr(s.liabilities[i].value), lastUpdated := now)
                                      else s.liabilities[i])
            && r.assets == s.assets && r.monthlyEntries == s.monthlyEntries && r.settings == s.settings
    ensures var r := AfterUpdateMonthlyEntry(s, id, e);
            && |r.monthlyEntries| == |s.monthlyEntries|
            && (forall i :: 0 <= i < |s.monthlyEntries| ==>
                  r.monthlyEntries[i] == if s.monthlyEntries[i].id == id
                                         then s.monthlyEntries[i].(month := e.month.GetOr(s.monthlyEntries[i].month),
                                                                   income := e.income.GetOr(s.monthlyEntries[i].income),
                                                                   expenses := e.expenses.GetOr(s.monthlyEntries[i].expenses))
                                         else s.monthlyEntries[i])
            && r.assets == s.assets && r.liabilities == s.liabilities && r.settings == s.settings
  {
  }

  /** `updateSettings` takes each supplied setting and keeps every other one;
      the data lists are untouched. */
  lemma UpdateSettingsEffect(s: AppState, p: SettingsPatch)
    ensures var r := AfterUpdateSettings(s, p);
            && (p.currency.Some? ==> r.settings.currency == p.currency.value)
            && (p.currency.None? ==> r.settings.currency == s.settings.currency)
            && (p.locale.Some? ==> r.settings.locale == p.locale.value)
            && (p.locale.None? ==> r.settings.locale == s.settings.locale)
            && (p.withdrawalRate.Some? ==> r.settings.withdrawalRate == p.withdrawalRate.value)
            && (p.withdrawalRate.None? ==> r.settings.withdrawalRate == s.settings.withdrawalRate)
            && (p.expectedReturn.Some? ==> r.settings.expectedReturn == p.expectedReturn.value)
            && (p.expectedReturn.None? ==> r.settings.expectedReturn == s.settings.expectedReturn)
            && (p.currentAge.Some? ==> r.settings.currentAge == p.currentAge.value)
            && (p.currentAge.None? ==> r.settings.currentAge == s.settings.currentAge)
            && (p.targetRetirementAge.Some? ==> r.settings.targetRetirementAge == p.targetRetirementAge.value)
            && (p.targetRetirementAge.None? ==> r.settings.targetRetirementAge == s.settings.targetRetirementAge)
            && r.assets == s.assets && r.liabilities == s.liabilities && r.monthlyEntries == s.monthlyEntries
  {
  }

  // ---------------------------------------------------------------------------
  // The store
  // ---------------------------------------------------------------------------

  class AppStore {
    var assets: seq<Asset>
    var liabilities: seq<Liability>
    var monthlyEntries: seq<MonthlyEntry>
    var settings: UserSettings
    var hydrated: bool

    function State(): AppState
      reads this
    {
      AppState(assets, liabilities, monthlyEntries, settings)
    }

    constructor()
      ensures State() == InitialState() && !hydrated
    {
      assets, liabilities, monthlyEntries, settings := [], [], [], DefaultSettings;
      hydrated := false;
    }

    method AddAsset(input: AssetInput, id: string, now: string)
      modifies this
      ensures State() == AfterAddAsset(old(State()), input, id, now) && hydrated == old(hydrated)
    {
      assets := assets + [Asset(id, input.name, input.kind, input.value, now)];
    }

    method UpdateAsset(id: string, updates: AssetPatch, now: string)
      modifies this
      ensures State() == AfterUpdateAsset(old(State()), id, updates, now) && hydrated == old(hydrated)
    {
      assets := MapWhere(assets, AssetId, id, a => PatchAsset(a, updates, now));
    }

    method DeleteAsset(id: string)
      modifies this
      ensures State() == AfterDeleteAsset(old(State()), id) && hydrated == old(hydrated)
    {
      assets := Remove(assets, AssetId, id);
    }

    method AddLiability(input: LiabilityInput, id: string, now: string)
      modifies this
      ensures State() == AfterAddLiability(old(State()), input, id, now) && hydrated == old(hydrated)
    {
      liabilities := liabilities + [Liability(id, input.name, input.kind, input.value, now)];
    }

    method UpdateLiability(id: string, updates: LiabilityPatch, now: string)
      modifies this
      ensures State() == AfterUpdateLiability(old(State()), id, updates, now) && hydrated == old(hydrated)
    {
      liabilities := MapWhere(liabilities, LiabilityId, id, l => PatchLiability(l, updates, now));
    }

    method DeleteLiability(id: string)
      modifies this
      ensures State() == AfterDeleteLiability(old(State()), id) && hydrated == old(hydrated)
    {
      liabilities := Remove(liabilities, LiabilityId, id);
    }

    method AddMonthlyEntry(input: EntryInput, id: string)
      modifies this
      ensures State() == AfterAddMonthlyEntry(old(State()), input, id) && hydrated == old(hydrated)
    {
      monthlyEntries := monthlyEntries + [MonthlyEntry(id, input.month, input.income, input.expenses)];
    }

    method UpdateMonthlyEntry(id: string, updates: EntryPatch)
      modifies this
      ensures State() == AfterUpdateMonthlyEntry(old(State()), id, updates) && hydrated == old(hydrated)
    {
      monthlyEntries := MapWhere(monthlyEntries, EntryId, id, e => PatchEntry(e, updates));
    }

    method DeleteMonthlyEntry(id: string)
      modifies this
      ensures State() == AfterDeleteMonthlyEntry(old(State()), id) && hydrated == old(hydrated)
    {
      monthlyEntries := Remove(monthlyEntries, EntryId, id);
    }

    method UpdateSettings(updates: SettingsPatch)
      modifies this
      ensures State() == AfterUpdateSettings(old(State()), updates) && hydrated == old(hydrated)
    {
      settings := PatchSettings(settings, updates);
    }

    method SetHydrated()
      modifies this
      ensures State() == old(State()) && hydrated
    {
      hydrated := true;
    }

    /** Rehydration: the persisted fields over the current ones, then the flag set. */
    method Rehydrate(persisted: PersistedApp)
      modifies this
      ensures State() == Merge(persisted, old(State())) && hydrated
    {
      var merged := Merge(persisted, State());
      assets, liabilities, monthlyEntries, settings := merged.assets, merged.liabilities, merged.monthlyEntries,
        merged.settings;
      SetHydrated();
    }
  }
}
