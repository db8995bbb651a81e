/**
 * The entities the three feature providers and the DX12 registry share:
 * upscaler backends and their instances, NGX parameter tables, the per-handle
 * `ContextData`, and the process-wide `State` and `Config` singletons.
 *
 * Upscaler adapters are opaque here: which modules load is a set, and the
 * identity each adapter reports is a pair of functions, all given as
 * `Adapters`. `Init` and `Evaluate` outcomes are parameters of the callers.
 */
module Upscalers {
  import opened Wrappers
  import opened SysUtils

  /** The upscaler implementations a provider can construct. */
  datatype Backend =
    | XeSSNative | XeSSOn12 | Fsr21 | Fsr21On12 | Fsr22 | Fsr22On12
    | Fsr31 | Fsr31On12 | DlssNative | DlssdNative

  /** The `OptiKeys` identifier naming each backend. */
  function KeyOf(b: Backend): (r: string)
    ensures r in BackendKeys()
  {
    match b
    case XeSSNative => XeSS
    case XeSSOn12 => XeSS_11on12
    case Fsr21 => FSR21
    case Fsr21On12 => FSR21_11on12
    case Fsr22 => FSR22
    case Fsr22On12 => FSR22_11on12
    case Fsr31 => FSR31
    case Fsr31On12 => FSR31_11on12
    case DlssNative => DLSS
    case DlssdNative => DLSSD
  }

  /** Distinct backends have distinct identifiers. */
  lemma KeyOfInjective(a: Backend, b: Backend)
    requires a != b
    ensures KeyOf(a) != KeyOf(b)
  {
  }

  /** The name a provider records for a backend: DLSSD is shown as DLSS. */
  function DisplayName(name: string): (r: string)
    ensures r != DLSSD
    ensures name != DLSSD ==> r == name
  {
    if name == DLSSD then DLSS else name
  }

  // ---------------------------------------------------------------------------
  // NGX parameter tables
  // ---------------------------------------------------------------------------

  /** Where a table came from: the game's own, or a scratch table of a provider. */
  datatype TableOrigin = HostTable | ScratchTable(provider: string)

  /** An NGX parameter table, reduced to its integer entries. */
  datatype ParamTable = ParamTable(origin: TableOrigin, entries: map<string, int>)

  /** The creation values a feature is built from and hands on when it is replaced. */
  datatype CreationValues = CreationValues(
    flags: int, renderWidth: int, renderHeight: int,
    displayWidth: int, displayHeight: int, perfQuality: int)

  /** NGX parameter names of the six creation values. */
  const CreateFlagsKey: string := "DLSS.Feature.Create.Flags"
  const WidthKey: string := "Width"
  const HeightKey: string := "Height"
  const OutWidthKey: string := "OutWidth"
  const OutHeightKey: string := "OutHeight"
  const PerfQualityKey: string := "PerfQualityValue"

  predicate IsCreationKey(k: string) {
    k == CreateFlagsKey || k == WidthKey || k == HeightKey
    || k == OutWidthKey || k == OutHeightKey || k == PerfQualityKey
  }

  /** `Get`: the entry under `key`, if any. */
  function Lookup(t: ParamTable, key: string): (r: Option<int>)
    ensures r.Some? <==> key in t.entries
    ensures r.Some? ==> r.value == t.entries[key]
  {
    if key in t.entries then Some(t.entries[key]) else None
  }

  /** What a feature's constructor reads (an absent value reads as 0). */
  function ReadCreation(t: ParamTable): CreationValues {
    CreationValues(
      Lookup(t, CreateFlagsKey).GetOr(0), Lookup(t, WidthKey).GetOr(0),
      Lookup(t, HeightKey).GetOr(0), Lookup(t, OutWidthKey).GetOr(0),
      Lookup(t, OutHeightKey).GetOr(0), Lookup(t, PerfQualityKey).GetOr(0))
  }

  /** The six `Set` calls of phase 1: the old feature's values copied into a table. */
  function Snapshot(t: ParamTable, c: CreationValues): (r: ParamTable)
    ensures r.origin == t.origin
    ensures forall k :: IsCreationKey(k) ==> k in r.entries
    ensures forall k :: !IsCreationKey(k) ==> Lookup(r, k) == Lookup(t, k)
  {
    ParamTable(t.origin, t.entries[CreateFlagsKey := c.flags][WidthKey := c.renderWidth]
      [HeightKey := c.renderHeight][OutWidthKey := c.displayWidth]
      [OutHeightKey := c.displayHeight][PerfQualityKey := c.perfQuality])
  }

  /** A feature built from a snapshot sees exactly the values that were copied. */
  lemma SnapshotRoundTrip(t: ParamTable, c: CreationValues)
    ensures ReadCreation(Snapshot(t, c)) == c
  {
  }

  /**
   * `GetNGXParameters(provider, false)`: a fresh scratch table. Such tables
   * carry the `OptiScaler` = 1 sentinel that marks them as owned by the
   * proxy (its constructor is not part of this model).
   */
  function NewScratchTable(provider: string): (r: ParamTable)
    ensures r.origin == ScratchTable(provider)
    ensures Lookup(r, ProjectID) == Some(1)
  {
    ParamTable(ScratchTable(provider), map[ProjectID := 1])
  }

  /** The test of phase 3: `Get("OptiScaler")` succeeds and yields 1. */
  predicate OwnedBySentinel(t: ParamTable) {
    Lookup(t, ProjectID) == Some(1)
  }

  /** Copying the creation values never touches the sentinel. */
  lemma SnapshotKeepsOwner(t: ParamTable, c: CreationValues)
    ensures OwnedBySentinel(Snapshot(t, c)) <==> OwnedBySentinel(t)
  {
    assert !IsCreationKey(ProjectID);
  }

  // ---------------------------------------------------------------------------
  // Upscaler instances
  // ---------------------------------------------------------------------------

  /** What the adapters do that this model cannot see. */
  datatype Adapters = Adapters(
    loads: set<Backend>,                    // backends whose `ModuleLoaded()` holds
    name: Backend -> string,                // what `Name()` reports
    version: Backend -> FeatureVersion)     // what `Version()` reports

  /**
   * An upscaler instance. `id` stands for its address: two instances are the
   * same object exactly when their ids agree.
   */
  datatype Feature = Feature(
    id: nat, handle: nat, backend: Backend, loaded: bool, inited: bool,
    creation: CreationValues, name: string, version: FeatureVersion)

  /** `std::make_unique<...>(handleId, parameters)` for a backend. */
  function Construct(id: nat, handle: nat, b: Backend, params: ParamTable, ad: Adapters): (f: Feature)
    ensures f.id == id && f.handle == handle && f.backend == b
    ensures f.loaded <==> b in ad.loads
    ensures !f.inited && f.creation == ReadCreation(params)
  {
    Feature(id, handle, b, b in ad.loads, false, ReadCreation(params), ad.name(b), ad.version(b))
  }

  /** The address `currentFeature` is given from a possibly-null owner. */
  function IdOf(f: Option<Feature>): (r: Option<nat>)
    ensures r.Some? <==> f.Some?
    ensures r.Some? ==> r.value == f.value.id
  {
    match f
    case Some(x) => Some(x.id)
    case None => None
  }

  function TableList(t: Option<ParamTable>): (r: seq<ParamTable>)
    ensures t.None? ==> r == []
    ensures t.Some? ==> r == [t.value]
  {
    if t.Some? then [t.value] else []
  }

  /** `ContextData`: a handle's feature, switch counter and creation table. */
  datatype ContextData = ContextData(feature: Option<Feature>, counter: nat, createParams: Option<ParamTable>)

  /** `{}`: the value-initialised entry. */
  const EmptyContext := ContextData(None, 0, None)

  /**
   * The shape an entry has between two calls of a switch: idle with a
   * feature, torn down with a snapshot (counter 1), or rebuilt and awaiting
   * `Init` (counter 2); a switch in progress keeps its flag armed.
   */
  predicate Shape(ctx: ContextData, armed: bool) {
    && ctx.counter <= 2
    && (ctx.counter == 0 ==> ctx.feature.Some?)
    && (ctx.counter == 1 ==> ctx.feature.None? && ctx.createParams.Some? && armed)
    && (ctx.counter == 2 ==> ctx.feature.Some? && ctx.createParams.Some? && armed)
  }

  /** What the switch dereferences on its next call: a table to build from, a feature to init. */
  predicate PhaseReady(ctx: ContextData) {
    && (ctx.counter == 1 ==> ctx.createParams.Some?)
    && (ctx.counter == 2 ==> ctx.feature.Some? && ctx.createParams.Some?)
  }

  lemma ShapeIsPhaseReady(ctx: ContextData, armed: bool)
    requires Shape(ctx, armed)
    ensures PhaseReady(ctx)
  {
  }

  // ---------------------------------------------------------------------------
  // Config and State
  // ---------------------------------------------------------------------------

  /** A `CustomOptional<std::string>` setting: an optional value and its default. */
  datatype ConfigString = ConfigString(value: Option<string>, fallback: string) {
    function ValueOrDefault(): string {
      value.GetOr(fallback)
    }

    /** `operator==` against a string: set and equal. */
    predicate Is(s: string) {
      value == Some(s)
    }

    function Assign(s: string): ConfigString {
      this.(value := Some(s))
    }
  }

  datatype ConfigView = ConfigView(
    dlssEnabled: bool,
    dx12Upscaler: ConfigString, dx11Upscaler: ConfigString, vulkanUpscaler: ConfigString,
    dx11DelayedInit: bool, skipFirstFrames: Option<int>,
    restoreComputeSignature: bool, restoreGraphicSignature: bool)

  /**
   * The `State` fields the core reads and writes. `featuresMade`,
   * `destroyedTables` and `sleeps` stand for the heap and the clock: how many
   * instances were allocated, which parameter tables were destroyed, and
   * which settle delays were slept, in order.
   */
  datatype StateView = StateView(
    dlssPath: bool, dlssdPath: bool, fastFeatureReset: bool,
    newBackend: string, changeBackend: map<nat, bool>, currentFeature: Option<nat>,
    nvngxDx12Inited: bool,
    featuresMade: nat, destroyedTables: seq<ParamTable>, sleeps: seq<nat>)

  datatype World = World(st: StateView, cfg: ConfigView)

  /** `state.changeBackend[handle]`; `operator[]` reads false for a missing key. */
  predicate Armed(st: StateView, handle: nat) {
    handle in st.changeBackend && st.changeBackend[handle]
  }

  function SetArmed(st: StateView, handle: nat, v: bool): (r: StateView)
    ensures Armed(r, handle) == v
    ensures forall h :: h != handle ==> Armed(r, h) == Armed(st, h)
  {
    st.(changeBackend := st.changeBackend[handle := v])
  }

  /** The `Config` singleton. */
  class Config {
    var dlssEnabled: bool
    var dx12Upscaler: ConfigString
    var dx11Upscaler: ConfigString
    var vulkanUpscaler: ConfigString
    var dx11DelayedInit: bool
    var skipFirstFrames: Option<int>
    var restoreComputeSignature: bool
    var restoreGraphicSignature: bool

    function View(): ConfigView
      reads this
    {
      ConfigView(dlssEnabled, dx12Upscaler, dx11Upscaler, vulkanUpscaler,
        dx11DelayedInit, skipFirstFrames, restoreComputeSignature, restoreGraphicSignature)
    }

    constructor (v: ConfigView)
      ensures View() == v
    {
      dlssEnabled := v.dlssEnabled;
      dx12Upscaler := v.dx12Upscaler;
      dx11Upscaler := v.dx11Upscaler;
      vulkanUpscaler := v.vulkanUpscaler;
      dx11DelayedInit := v.dx11DelayedInit;
      skipFirstFrames := v.skipFirstFrames;
      restoreComputeSignature := v.restoreComputeSignature;
      restoreGraphicSignature := v.restoreGraphicSignature;
    }
  }

  /** The `State` singleton. */
  class State {
    var dlssPath: bool
    var dlssdPath: bool
    var fastFeatureReset: bool
    var newBackend: string
    var changeBackend: map<nat, bool>
    var currentFeature: Option<nat>
    var nvngxDx12Inited: bool
    var featuresMade: nat
    var destroyedTables: seq<ParamTable>
    var sleeps: seq<nat>

    function View(): StateView
      reads this
    {
      StateView(dlssPath, dlssdPath, fastFeatureReset, newBackend, changeBackend,
        currentFeature, nvngxDx12Inited, featuresMade, destroyedTables, sleeps)
    }

    constructor (v: StateView)
      ensures View() == v
    {
      dlssPath := v.dlssPath;
      dlssdPath := v.dlssdPath;
      fastFeatureReset := v.fastFeatureReset;
      newBackend := v.newBackend;
      changeBackend := v.changeBackend;
      currentFeature := v.currentFeature;
      nvngxDx12Inited := v.nvngxDx12Inited;
      featuresMade := v.featuresMade;
      destroyedTables := v.destroyedTables;
      sleeps := v.sleeps;
    }

    /** `state.changeBackend[handle] = v`. */
    method SetChangeBackend(handle: nat, v: bool)
      modifies this
      ensures View() == SetArmed(old(View()), handle, v)
    {
      changeBackend := changeBackend[handle := v];
    }

    /** `TryDestroyNGXParameters` on a table. */
    method DestroyTable(t: ParamTable)
      modifies this
      ensures View() == old(View()).(destroyedTables := old(destroyedTables) + [t])
    {
      destroyedTables := destroyedTables + [t];
    }

    /** Allocates the address of a new instance. */
    method NextFeatureId() returns (id: nat)
      modifies this
      ensures id == old(featuresMade)
      ensures View() == old(View()).(featuresMade := old(featuresMade) + 1)
    {
      id := featuresMade;
      featuresMade := featuresMade + 1;
    }
  }

  function WorldOf(st: State, cfg: Config): World
    reads st, cfg
  {
    World(st.View(), cfg.View())
  }

  // ---------------------------------------------------------------------------
  // What the three providers share
  // ---------------------------------------------------------------------------

  /** The outcome of `GetFeature`: its result, the instance, and the new globals. */
  datatype Built = Built(ok: bool, feature: Feature, w: World)

  /** The outcome of one `ChangeFeature` call: its result, the entry, the caller's table, the globals. */
  datatype Changed = Changed(ok: bool, ctx: ContextData, host: ParamTable, w: World)

  /**
   * The target a switch actually uses: an empty name, or DLSS while DLSS is
   * disabled, means the provider's configured upscaler.
   */
  function NormalizeTarget(target: string, dlssEnabled: bool, configured: ConfigString): (r: string)
    ensures target == "" ==> r == configured.ValueOrDefault()
    ensures !dlssEnabled && target == DLSS ==> r == configured.ValueOrDefault()
    ensures target != "" && (dlssEnabled || target != DLSS) ==> r == target
  {
    if target == "" || (!dlssEnabled && target == DLSS) then configured.ValueOrDefault() else target
  }

  /** A normalised target stays as it is: the configured name is already final. */
  lemma NormalizeTargetIdempotent(target: string, dlssEnabled: bool, configured: ConfigString)
    ensures var t := NormalizeTarget(target, dlssEnabled, configured);
      NormalizeTarget(t, dlssEnabled, configured) == t
  {
  }

  /**
   * A target normalised again after the provider's setting changed is
   * DLSSD exactly when it was: `GetFeature` never records "dlssd", and an
   * unchanged setting normalises the same way twice.
   */
  lemma RenormalizedTargetIsDlssd(t: string, dlssEnabled: bool, before: ConfigString, after: ConfigString)
    requires t == NormalizeTarget(t, dlssEnabled, before)
    requires after == before || (after.value.Some? && after.value.value != DLSSD)
    ensures NormalizeTarget(t, dlssEnabled, after) == DLSSD <==> t == DLSSD
  {
  }

  /** A target is handed the caller's own table when it is a DLSS one. */
  predicate IsPassthrough(target: string) {
    target == DLSSD || target == DLSS
  }

  /**
   * The next target after a failed `Init` (DX12 and Vulkan): DLSSD is
   * retried; anything else falls back to XeSS when DLSS is the configured
   * upscaler and to FSR 2.1.2 otherwise.
   */
  function RetryTarget(failed: string, configured: ConfigString): (r: string)
    ensures r == DLSSD <==> failed == DLSSD
    ensures r in {DLSSD, XeSS, FSR21}
    ensures r == XeSS <==> failed != DLSSD && configured.Is(DLSS)
  {
    if failed != DLSSD then (if configured.Is(DLSS) then XeSS else FSR21) else DLSSD
  }
}
