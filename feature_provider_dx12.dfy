/**
 * FeatureProvider_Dx12 (OptiScaler/upscalers/FeatureProvider_Dx12.cpp):
 * building a DX12 upscaler from a backend name, and the three-call state
 * machine that replaces a handle's upscaler with another one.
 *
 * Each operation is a pure specification function (the `...Spec`) and an
 * imperative method over the `State`/`Config` singletons proved to do
 * exactly what the function says; the lemmas state what the design
 * promises about the functions.
 */
module FeatureProviderDx12 {
  import opened Wrappers
  import opened SysUtils
  import opened Upscalers

  // ---------------------------------------------------------------------------
  // GetFeature
  // ---------------------------------------------------------------------------

  /** A constructed backend and the name the provider goes on to record. */
  datatype Choice = Choice(backend: Backend, name: string)

  /** The name-to-backend chain, before the loaded check. */
  function Select(name: string, dlssEnabled: bool, dlssPath: bool, dlssdPath: bool): (c: Choice)
    ensures c.backend == DlssNative ==> name == DLSS && dlssEnabled && dlssPath
    ensures c.backend == DlssdNative ==> name == DLSSD && dlssEnabled && dlssdPath
    ensures c.name == KeyOf(c.backend)
  {
    if name == XeSS then Choice(XeSSNative, name)
    else if name == FSR21 then Choice(Fsr21, name)
    else if name == FSR22 then Choice(Fsr22, name)
    else if name == FSR31 then Choice(Fsr31, name)
    else if dlssEnabled then
      if name == DLSS && dlssPath then Choice(DlssNative, name)
      else if name == DLSSD && dlssdPath then Choice(DlssdNative, name)
      else Choice(Fsr21, FSR21)
    else Choice(Fsr21, FSR21)
  }

  /**
   * `GetFeature`: the selected backend, or FSR 2.1.2 when its module did not
   * load; the result is true whatever happens, and `Dx12Upscaler` names the
   * backend that was built (DLSSD shown as DLSS).
   */
  function GetFeatureSpec(w: World, name: string, handle: nat, params: ParamTable, ad: Adapters): (r: Built)
    ensures r.ok
    ensures r.feature.backend in ad.loads || r.feature.backend == Fsr21
    ensures r.w.cfg.dx12Upscaler.value == Some(DisplayName(KeyOf(r.feature.backend)))
    ensures r.feature == Construct(w.st.featuresMade, handle, r.feature.backend, params, ad)
    ensures r.w.st == w.st.(featuresMade := w.st.featuresMade + 1)
    ensures r.w.cfg == w.cfg.(dx12Upscaler := r.w.cfg.dx12Upscaler)
  {
    var c := Select(name, w.cfg.dlssEnabled, w.st.dlssPath, w.st.dlssdPath);
    var c' := if c.backend in ad.loads then c else Choice(Fsr21, FSR21);
    var f := Construct(w.st.featuresMade, handle, c'.backend, params, ad);
    Built(true, f, World(w.st.(featuresMade := w.st.featuresMade + 1),
                         w.cfg.(dx12Upscaler := w.cfg.dx12Upscaler.Assign(DisplayName(c'.name)))))
  }

  /** DLSS is built exactly when asked for, enabled, found on disk and loaded. */
  lemma GetFeatureDlssGate(w: World, name: string, handle: nat, params: ParamTable, ad: Adapters)
    ensures var r := GetFeatureSpec(w, name, handle, params, ad);
      (r.feature.backend == DlssNative <==>
        name == DLSS && w.cfg.dlssEnabled && w.st.dlssPath && DlssNative in ad.loads)
      && (r.feature.backend == DlssdNative <==>
        name == DLSSD && w.cfg.dlssEnabled && w.st.dlssdPath && DlssdNative in ad.loads)
  {
  }

  /** A recognised name whose module loads is built as asked and recorded as asked. */
  lemma GetFeatureRecognisedName(w: World, name: string, handle: nat, params: ParamTable, ad: Adapters)
    requires name in {XeSS, FSR21, FSR22, FSR31}
    ensures var r := GetFeatureSpec(w, name, handle, params, ad);
      (Select(name, w.cfg.dlssEnabled, w.st.dlssPath, w.st.dlssdPath).backend in ad.loads ==> KeyOf(r.feature.backend) == name && r.w.cfg.dx12Upscaler.Is(name))
  {
  }

  /** Any other name builds FSR 2.1.2 and records "fsr21". */
  lemma GetFeatureUnknownName(w: World, name: string, handle: nat, params: ParamTable, ad: Adapters)
    requires name !in {XeSS, FSR21, FSR22, FSR31, DLSS, DLSSD}
    ensures var r := GetFeatureSpec(w, name, handle, params, ad);
      r.feature.backend == Fsr21 && r.w.cfg.dx12Upscaler.Is(FSR21)
  {
  }

  /** `FeatureProvider_Dx12::GetFeature`. */
  method GetFeature(st: State, cfg: Config, name: string, handle: nat, params: ParamTable, ad: Adapters)
    returns (ok: bool, feature: Feature)
    modifies st, cfg
    ensures var r := GetFeatureSpec(old(WorldOf(st, cfg)), name, handle, params, ad);
      ok == r.ok && feature == r.feature && WorldOf(st, cfg) == r.w
  {
    var choice := Select(name, cfg.dlssEnabled, st.dlssPath, st.dlssdPath);
    var backend := choice.backend;
    var configName := choice.name;

    ok := backend in ad.loads;
    if !ok {
      backend := Fsr21;
      configName := FSR21;
      ok := true;  // the fallback is assumed to load
    }

    var id := st.NextFeatureId();
    feature := Construct(id, handle, backend, params, ad);

    RecordUpscaler(cfg, configName);
  }

  /** Records the name of the upscaler built, DLSSD shown as DLSS. */
  method RecordUpscaler(cfg: Config, configName: string)
    modifies cfg
    ensures cfg.View() == old(cfg.View()).(dx12Upscaler := old(cfg.dx12Upscaler).Assign(DisplayName(configName)))
  {
    var shown := configName;
    if shown == DLSSD {
      shown := DLSS;
    }
    cfg.dx12Upscaler := cfg.dx12Upscaler.Assign(shown);
  }

  // ---------------------------------------------------------------------------
  // ChangeFeature
  // ---------------------------------------------------------------------------

  /** The settle delay before the old instance is destroyed. */
  function SettleDelay(fastFeatureReset: bool): nat {
    if fastFeatureReset then 100 else 1000
  }

  /**
   * Phase 1 (the counter has just become 1), with `newBackend` already
   * normalised: with a live instance, snapshot its creation values, settle,
   * destroy it and null `currentFeature`; without one, abandon the switch.
   */
  function TeardownSpec(w: World, handle: nat, host: ParamTable, ctx: ContextData): (r: Changed)
    ensures r.ok && r.w.cfg == w.cfg
    ensures forall h :: h != handle ==> Armed(r.w.st, h) == Armed(w.st, h)
  {
    var target := w.st.newBackend;
    match ctx.feature
    case Some(f) =>
      var table := Snapshot(if IsPassthrough(target) then host else NewScratchTable(Dx12Provider), f.creation);
      var host' := if IsPassthrough(target) then table else host;
      var st' := w.st.(sleeps := w.st.sleeps + [SettleDelay(w.st.fastFeatureReset)], currentFeature := None);
      Changed(true, ctx.(feature := None, createParams := Some(table)), host', World(st', w.cfg))
    case None =>
      var st' := SetArmed(w.st.(newBackend := ""), handle, false)
        .(destroyedTables := w.st.destroyedTables + TableList(ctx.createParams));
      Changed(true, ContextData(None, 0, None), host, World(st', w.cfg))
  }

  /** Phase 2: build the target from the snapshot; the counter stays at 2. */
  function RebuildSpec(w: World, handle: nat, host: ParamTable, ctx: ContextData, ad: Adapters): (r: Changed)
    requires ctx.createParams.Some?
    ensures r.ok && r.ctx.feature.Some? && r.ctx.counter == ctx.counter && r.ctx.createParams == ctx.createParams
  {
    var b := GetFeatureSpec(w, w.st.newBackend, handle, ctx.createParams.value, ad);
    Changed(b.ok, ctx.(feature := Some(b.feature)), host, b.w)
  }

  /**
   * Phase 3: `Init` the new instance and reset the counter. On failure re-arm
   * towards the retry target and stop; on success disarm, release a
   * sentinel-marked table, and make the instance current.
   */
  function InitSpec(w: World, handle: nat, host: ParamTable, ctx: ContextData, initOk: bool): (r: Changed)
    requires ctx.feature.Some? && ctx.createParams.Some?
    ensures r.ok && r.w.cfg == w.cfg && r.ctx.counter == 0 && r.ctx.feature.Some?
    ensures forall h :: h != handle ==> Armed(r.w.st, h) == Armed(w.st, h)
  {
    var f := ctx.feature.value.(inited := initOk);
    if !initOk then
      var st' := SetArmed(w.st.(newBackend := RetryTarget(w.st.newBackend, w.cfg.dx12Upscaler)), handle, true);
      Changed(true, ContextData(Some(f), 0, ctx.createParams), host, World(st', w.cfg))
    else
      var params := ctx.createParams.value;
      var st1 := SetArmed(w.st.(newBackend := ""), handle, false);
      var st2 := if OwnedBySentinel(params) then st1.(destroyedTables := st1.destroyedTables + [params]) else st1;
      var kept := if OwnedBySentinel(params) then None else ctx.createParams;
      Changed(true, ContextData(Some(f), 0, kept), host, World(st2.(currentFeature := Some(f.id)), w.cfg))
  }

  /**
   * One call of `ChangeFeature` for `handle`: nothing unless the handle's
   * flag is armed; otherwise normalise the target, advance the counter and
   * run the phase it names (a counter past 3 only refreshes `currentFeature`).
   */
  function ChangeFeatureSpec(w: World, handle: nat, host: ParamTable, ctx: ContextData,
                             ad: Adapters, initOk: bool): (r: Changed)
    requires Armed(w.st, handle) ==> PhaseReady(ctx)
    ensures !Armed(w.st, handle) ==> r == Changed(false, ctx, host, w)
  {
    if !Armed(w.st, handle) then Changed(false, ctx, host, w)
    else
      var target := NormalizeTarget(w.st.newBackend, w.cfg.dlssEnabled, w.cfg.dx12Upscaler);
      var w' := World(w.st.(newBackend := target), w.cfg);
      var c := ctx.(counter := ctx.counter + 1);
      if c.counter == 1 then TeardownSpec(w', handle, host, c)
      else if c.counter == 2 then RebuildSpec(w', handle, host, c, ad)
      else if c.counter == 3 then InitSpec(w', handle, host, c, initOk)
      else Changed(true, c, host, World(w'.st.(currentFeature := IdOf(c.feature)), w'.cfg))
  }

  method Teardown(st: State, cfg: Config, handle: nat, host: ParamTable, ctx: ContextData)
    returns (ok: bool, ctx': ContextData, host': ParamTable)
    modifies st
    ensures var r := TeardownSpec(old(WorldOf(st, cfg)), handle, host, ctx);
      ok == r.ok && ctx' == r.ctx && host' == r.host && WorldOf(st, cfg) == r.w
  {
    ctx' := ctx;
    host' := host;
    if ctx'.feature.Some? {
      var dc := ctx'.feature.value;
      var passthrough := st.newBackend == DLSSD || st.newBackend == DLSS;
      var table := if passthrough then host else NewScratchTable(Dx12Provider);
      table := Snapshot(table, dc.creation);
      if passthrough {
        host' := table;  // the caller's table is written through
      }
      ctx' := ctx'.(createParams := Some(table));
      st.sleeps := st.sleeps + [if st.fastFeatureReset then 100 else 1000];
      ctx' := ctx'.(feature := None);
      st.currentFeature := None;
    } else {
      st.newBackend := "";
      st.SetChangeBackend(handle, false);
      if ctx'.createParams.Some? {
        st.DestroyTable(ctx'.createParams.value);
        ctx' := ctx'.(createParams := None);
      }
      ctx' := ctx'.(counter := 0);
    }
    ok := true;
  }

  method Rebuild(st: State, cfg: Config, handle: nat, host: ParamTable, ctx: ContextData, ad: Adapters)
    returns (ok: bool, ctx': ContextData, host': ParamTable)
    requires ctx.createParams.Some?
    modifies st, cfg
    ensures var r := RebuildSpec(old(WorldOf(st, cfg)), handle, host, ctx, ad);
      ok == r.ok && ctx' == r.ctx && host' == r.host && WorldOf(st, cfg) == r.w
  {
    host' := host;
    ctx' := ctx.(feature := None);
    var built, feature := GetFeature(st, cfg, st.newBackend, handle, ctx'.createParams.value, ad);
    ctx' := ctx'.(feature := Some(feature));
    if !built {
      return false, ctx', host';
    }
    ok := true;
  }

  method InitPhase(st: State, cfg: Config, handle: nat, host: ParamTable, ctx: ContextData, initOk: bool)
    returns (ok: bool, ctx': ContextData, host': ParamTable)
    requires ctx.feature.Some? && ctx.createParams.Some?
    modifies st
    ensures var r := InitSpec(old(WorldOf(st, cfg)), handle, host, ctx, initOk);
      ok == r.ok && ctx' == r.ctx && host' == r.host && WorldOf(st, cfg) == r.w
  {
    host' := host;
    ctx' := ctx.(feature := Some(ctx.feature.value.(inited := initOk)));
    ctx' := ctx'.(counter := 0);

    if !initOk {
      if st.newBackend != DLSSD {
        if cfg.dx12Upscaler.Is(DLSS) {
          st.newBackend := XeSS;
        } else {
          st.newBackend := FSR21;
        }
      } else {
        st.newBackend := DLSSD;  // retry DLSSD
      }
      st.SetChangeBackend(handle, true);
      return true, ctx', host';
    }

    st.newBackend := "";
    st.SetChangeBackend(handle, false);

    if Lookup(ctx'.createParams.value, ProjectID) == Some(1) {
      st.DestroyTable(ctx'.createParams.value);
      ctx' := ctx'.(createParams := None);
    }

    st.currentFeature := IdOf(ctx'.feature);
    ok := true;
  }

  /** `FeatureProvider_Dx12::ChangeFeature`; `ContextData` is passed and returned by value. */
  method ChangeFeature(st: State, cfg: Config, handle: nat, host: ParamTable, ctx: ContextData,
                       ad: Adapters, initOk: bool)
    returns (ok: bool, ctx': ContextData, host': ParamTable)
    requires Armed(st.View(), handle) ==> PhaseReady(ctx)
    modifies st, cfg
    ensures var r := ChangeFeatureSpec(old(WorldOf(st, cfg)), handle, host, ctx, ad, initOk);
      ok == r.ok && ctx' == r.ctx && host' == r.host && WorldOf(st, cfg) == r.w
  {
    if !(handle in st.changeBackend && st.changeBackend[handle]) {
      return false, ctx, host;
    }

    if st.newBackend == "" || (!cfg.dlssEnabled && st.newBackend == DLSS) {
      st.newBackend := cfg.dx12Upscaler.ValueOrDefault();
    }

    ctx' := ctx.(counter := ctx.counter + 1);

    if ctx'.counter == 1 {
      ok, ctx', host' := Teardown(st, cfg, handle, host, ctx');
    } else if ctx'.counter == 2 {
      ok, ctx', host' := Rebuild(st, cfg, handle, host, ctx', ad);
    } else if ctx'.counter == 3 {
      ok, ctx', host' := InitPhase(st, cfg, handle, host, ctx', initOk);
    } else {
      st.currentFeature := IdOf(ctx'.feature);
      ok, host' := true, host;
    }
  }

  // ---------------------------------------------------------------------------
  // Properties of the switch
  // ---------------------------------------------------------------------------

  /** A call keeps an entry in the shape of a switch at rest or in progress. */
  lemma ChangeFeatureKeepsShape(w: World, handle: nat, host: ParamTable, ctx: ContextData, ad: Adapters, initOk: bool)
    requires Shape(ctx, Armed(w.st, handle))
    ensures Armed(w.st, handle) ==> PhaseReady(ctx)
    ensures var r := ChangeFeatureSpec(w, handle, host, ctx, ad, initOk);
      Shape(r.ctx, Armed(r.w.st, handle))
      && (Armed(w.st, handle) ==> r.ok && r.ctx.counter == (ctx.counter + 1) % 3)
  {
  }

  /** A call touches no other handle's flag and no setting but the recorded upscaler name. */
  lemma ChangeFeatureIsLocal(w: World, handle: nat, host: ParamTable, ctx: ContextData, ad: Adapters, initOk: bool)
    requires Armed(w.st, handle) ==> PhaseReady(ctx)
    ensures var r := ChangeFeatureSpec(w, handle, host, ctx, ad, initOk);
      && (forall h :: h != handle ==> Armed(r.w.st, h) == Armed(w.st, h))
      && r.w.cfg == w.cfg.(dx12Upscaler := r.w.cfg.dx12Upscaler)
      && (r.w.cfg.dx12Upscaler != w.cfg.dx12Upscaler ==> Armed(w.st, handle) && ctx.counter == 1)
  {
  }

  /**
   * Phase 1 on a live instance: the snapshot goes into the caller's table for
   * a DLSS target and into a fresh `OptiDx12` table otherwise; the instance
   * is gone and `currentFeature` is null.
   */
  lemma ChangeFeatureTeardown(w: World, handle: nat, host: ParamTable, ctx: ContextData, ad: Adapters, initOk: bool)
    requires Armed(w.st, handle) && ctx.counter == 0 && ctx.feature.Some?
    ensures var r := ChangeFeatureSpec(w, handle, host, ctx, ad, initOk);
      var target := NormalizeTarget(w.st.newBackend, w.cfg.dlssEnabled, w.cfg.dx12Upscaler);
      && r.ok && r.ctx.counter == 1 && r.ctx.feature.None? && r.ctx.createParams.Some?
      && ReadCreation(r.ctx.createParams.value) == ctx.feature.value.creation
      && (IsPassthrough(target) ==> r.ctx.createParams.value.origin == host.origin && r.host == r.ctx.createParams.value)
      && (!IsPassthrough(target) ==> r.ctx.createParams.value.origin == ScratchTable(Dx12Provider) && r.host == host)
      && (OwnedBySentinel(r.ctx.createParams.value) <==> !IsPassthrough(target) || OwnedBySentinel(host))
      && r.w.st == w.st.(newBackend := target, currentFeature := None,
                         sleeps := w.st.sleeps + [if w.st.fastFeatureReset then 100 else 1000])
      && r.w.cfg == w.cfg
  {
    var target := NormalizeTarget(w.st.newBackend, w.cfg.dlssEnabled, w.cfg.dx12Upscaler);
    var base := if IsPassthrough(target) then host else NewScratchTable(Dx12Provider);
    SnapshotRoundTrip(base, ctx.feature.value.creation);
    SnapshotKeepsOwner(base, ctx.feature.value.creation);
  }

  /** Phase 1 without an instance abandons the switch and destroys any table. */
  lemma ChangeFeatureAbandon(w: World, handle: nat, host: ParamTable, ctx: ContextData, ad: Adapters, initOk: bool)
    requires Armed(w.st, handle) && ctx.counter == 0 && ctx.feature.None?
    ensures var r := ChangeFeatureSpec(w, handle, host, ctx, ad, initOk);
      r.ok && r.ctx == EmptyContext && !Armed(r.w.st, handle) && r.w.st.newBackend == ""
      && r.w.st.destroyedTables == w.st.destroyedTables + TableList(ctx.createParams)
  {
  }

  /** Phase 2: the target `GetFeature` builds from the snapshot is the entry's new instance. */
  lemma ChangeFeatureRebuild(w: World, handle: nat, host: ParamTable, ctx: ContextData, ad: Adapters, initOk: bool)
    requires Armed(w.st, handle) && ctx.counter == 1 && ctx.createParams.Some?
    ensures var r := ChangeFeatureSpec(w, handle, host, ctx, ad, initOk);
      var target := NormalizeTarget(w.st.newBackend, w.cfg.dlssEnabled, w.cfg.dx12Upscaler);
      var b := GetFeatureSpec(World(w.st.(newBackend := target), w.cfg), target, handle, ctx.createParams.value, ad);
      r.ok && r.ctx == ContextData(Some(b.feature), 2, ctx.createParams) && r.host == host && r.w == b.w
  {
  }

  /**
   * Phase 3: the counter returns to 0 whatever `Init` says. A failure re-arms
   * the flag towards the retry target and leaves `currentFeature` and the
   * table alone; a success disarms, clears the target, releases the table
   * exactly when it carries the sentinel, and makes the instance current.
   */
  lemma ChangeFeatureInit(w: World, handle: nat, host: ParamTable, ctx: ContextData, ad: Adapters, initOk: bool)
    requires Armed(w.st, handle) && ctx.counter == 2 && ctx.feature.Some? && ctx.createParams.Some?
    ensures var r := ChangeFeatureSpec(w, handle, host, ctx, ad, initOk);
      var target := NormalizeTarget(w.st.newBackend, w.cfg.dlssEnabled, w.cfg.dx12Upscaler);
      var params := ctx.createParams.value;
      && r.ok && r.ctx.counter == 0 && r.ctx.feature == Some(ctx.feature.value.(inited := initOk))
      && (!initOk ==> Armed(r.w.st, handle) && r.w.st.newBackend == RetryTarget(target, w.cfg.dx12Upscaler)
                      && r.w.st.currentFeature == w.st.currentFeature
                      && r.ctx.createParams == ctx.createParams
                      && r.w.st.destroyedTables == w.st.destroyedTables)
      && (initOk ==> !Armed(r.w.st, handle) && r.w.st.newBackend == ""
                     && r.w.st.currentFeature == Some(ctx.feature.value.id)
                     && (OwnedBySentinel(params) ==>
                           r.ctx.createParams.None? && r.w.st.destroyedTables == w.st.destroyedTables + [params])
                     && (!OwnedBySentinel(params) ==>
                           r.ctx.createParams == ctx.createParams && r.w.st.destroyedTables == w.st.destroyedTables))
  {
  }

  /** The first call of a switch on an idle entry with a live instance. */
  function Snapshot1(w: World, host: ParamTable, ctx: ContextData): Changed
    requires ctx.feature.Some?
  {
    var target := NormalizeTarget(w.st.newBackend, w.cfg.dlssEnabled, w.cfg.dx12Upscaler);
    TeardownSpec(World(w.st.(newBackend := target), w.cfg), 0, host, ctx.(counter := 1))
  }

  /** The three calls of a switch, chained. */
  function Run3(w: World, handle: nat, host: ParamTable, ctx: ContextData, ad: Adapters, initOk: bool): Changed
    requires Shape(ctx, Armed(w.st, handle)) && Armed(w.st, handle) && ctx.counter == 0
  {
    ChangeFeatureKeepsShape(w, handle, host, ctx, ad, initOk);
    var r1 := ChangeFeatureSpec(w, handle, host, ctx, ad, initOk);
    ChangeFeatureKeepsShape(r1.w, handle, r1.host, r1.ctx, ad, initOk);
    var r2 := ChangeFeatureSpec(r1.w, handle, r1.host, r1.ctx, ad, initOk);
    ChangeFeatureKeepsShape(r2.w, handle, r2.host, r2.ctx, ad, initOk);
    ChangeFeatureSpec(r2.w, handle, r2.host, r2.ctx, ad, initOk)
  }

  /** The first call of a switch on an idle entry, as facts. */
  lemma AfterTeardown(w: World, handle: nat, host: ParamTable, ctx: ContextData, ad: Adapters, initOk: bool)
    returns (r1: Changed)
    requires Shape(ctx, Armed(w.st, handle)) && Armed(w.st, handle) && ctx.counter == 0
    ensures r1 == ChangeFeatureSpec(w, handle, host, ctx, ad, initOk)
    ensures Armed(r1.w.st, handle) && r1.ctx.counter == 1 && r1.ctx.feature.None? && r1.ctx.createParams.Some?
    ensures ReadCreation(r1.ctx.createParams.value) == ctx.feature.value.creation
    ensures r1.ctx.createParams == Snapshot1(w, host, ctx).ctx.createParams
    ensures r1.w.st.newBackend == NormalizeTarget(w.st.newBackend, w.cfg.dlssEnabled, w.cfg.dx12Upscaler)
    ensures r1.w.st.currentFeature.None? && r1.w.st.destroyedTables == w.st.destroyedTables
    ensures r1.w.st.featuresMade == w.st.featuresMade
    ensures r1.w.st.dlssPath == w.st.dlssPath && r1.w.st.dlssdPath == w.st.dlssdPath && r1.w.cfg == w.cfg
  {
    r1 := ChangeFeatureSpec(w, handle, host, ctx, ad, initOk);
    ChangeFeatureTeardown(w, handle, host, ctx, ad, initOk);
  }

  /** The second call of a switch, as facts. */
  lemma AfterRebuild(w: World, handle: nat, host: ParamTable, ctx: ContextData, ad: Adapters, initOk: bool)
    returns (r2: Changed)
    requires Armed(w.st, handle) && ctx.counter == 1 && ctx.createParams.Some?
    requires NormalizeTarget(w.st.newBackend, w.cfg.dlssEnabled, w.cfg.dx12Upscaler) == w.st.newBackend
    ensures r2 == ChangeFeatureSpec(w, handle, host, ctx, ad, initOk)
    ensures Armed(r2.w.st, handle) && r2.ctx.counter == 2 && r2.ctx.feature.Some?
    ensures r2.ctx.createParams == ctx.createParams
    ensures r2.ctx.feature.value.id == w.st.featuresMade
    ensures r2.ctx.feature.value.creation == ReadCreation(ctx.createParams.value)
    ensures var c := Select(w.st.newBackend, w.cfg.dlssEnabled, w.st.dlssPath, w.st.dlssdPath);
      r2.ctx.feature.value.backend == (if c.backend in ad.loads then c.backend else Fsr21)
    ensures r2.w.st == w.st.(featuresMade := w.st.featuresMade + 1)
    ensures r2.w.cfg.dx12Upscaler.value == Some(DisplayName(KeyOf(r2.ctx.feature.value.backend)))
  {
    r2 := ChangeFeatureSpec(w, handle, host, ctx, ad, initOk);
    assert World(w.st.(newBackend := w.st.newBackend), w.cfg) == w;
    ChangeFeatureRebuild(w, handle, host, ctx, ad, initOk);
  }

  /** The first two calls of a switch: torn down, then rebuilt from the snapshot. */
  lemma {:induction false} SwitchToInit(w: World, handle: nat, host: ParamTable, ctx: ContextData, ad: Adapters, initOk: bool)
    returns (r2: Changed)
    requires Shape(ctx, Armed(w.st, handle)) && Armed(w.st, handle) && ctx.counter == 0
    ensures Armed(r2.w.st, handle) && r2.ctx.counter == 2 && r2.ctx.feature.Some? && r2.ctx.createParams.Some?
    ensures Run3(w, handle, host, ctx, ad, initOk) == ChangeFeatureSpec(r2.w, handle, r2.host, r2.ctx, ad, initOk)
    ensures var target := NormalizeTarget(w.st.newBackend, w.cfg.dlssEnabled, w.cfg.dx12Upscaler);
      var c := Select(target, w.cfg.dlssEnabled, w.st.dlssPath, w.st.dlssdPath);
      r2.ctx.feature.value.backend == (if c.backend in ad.loads then c.backend else Fsr21)
    ensures r2.ctx.feature.value.id == w.st.featuresMade
    ensures r2.ctx.feature.value.creation == ctx.feature.value.creation
    ensures r2.w.st.newBackend == NormalizeTarget(w.st.newBackend, w.cfg.dlssEnabled, w.cfg.dx12Upscaler)
    ensures r2.w.st.currentFeature.None? && r2.w.st.destroyedTables == w.st.destroyedTables
    ensures r2.ctx.createParams == Snapshot1(w, host, ctx).ctx.createParams
    ensures r2.w.cfg.dx12Upscaler.value.Some? && r2.w.cfg.dx12Upscaler.value.value != DLSSD
  {
    var r1 := AfterTeardown(w, handle, host, ctx, ad, initOk);
    NormalizeTargetIdempotent(w.st.newBackend, w.cfg.dlssEnabled, w.cfg.dx12Upscaler);
    r2 := AfterRebuild(r1.w, handle, r1.host, r1.ctx, ad, initOk);
  }

  /** The third call of a switch, after the first two, as facts. */
  lemma AfterInit(w: World, handle: nat, host: ParamTable, ctx: ContextData, ad: Adapters, initOk: bool)
    requires Armed(w.st, handle) && ctx.counter == 2 && ctx.feature.Some? && ctx.createParams.Some?
    requires w.st.currentFeature.None?
    requires w.cfg.dx12Upscaler.value.Some? && w.cfg.dx12Upscaler.value.value != DLSSD
    ensures var r := ChangeFeatureSpec(w, handle, host, ctx, ad, initOk);
      var t := w.st.newBackend;
      && r.ok && r.ctx.counter == 0 && r.ctx.feature == Some(ctx.feature.value.(inited := initOk))
      && (initOk ==> !Armed(r.w.st, handle) && r.w.st.newBackend == ""
                     && r.w.st.currentFeature == Some(ctx.feature.value.id))
      && (!initOk ==> Armed(r.w.st, handle) && r.w.st.currentFeature.None?
                      && r.w.st.newBackend in {DLSSD, XeSS, FSR21}
                      && (r.w.st.newBackend == DLSSD <==> t == DLSSD))
  {
    ChangeFeatureInit(w, handle, host, ctx, ad, initOk);
  }

  /**
   * Three calls on an armed, idle entry replace its instance with a new one
   * built from the old one's creation values, of the backend `GetFeature`
   * chooses for the normalised target. If `Init` succeeds the switch is
   * complete and the new instance is current; otherwise the flag is armed
   * again towards a fallback, which is DLSSD exactly when DLSSD failed.
   */
  lemma {:induction false} FullSwitch(w: World, handle: nat, host: ParamTable, ctx: ContextData, ad: Adapters, initOk: bool)
    requires Shape(ctx, Armed(w.st, handle)) && Armed(w.st, handle) && ctx.counter == 0
    ensures var r := Run3(w, handle, host, ctx, ad, initOk);
      var target := NormalizeTarget(w.st.newBackend, w.cfg.dlssEnabled, w.cfg.dx12Upscaler);
      var c := Select(target, w.cfg.dlssEnabled, w.st.dlssPath, w.st.dlssdPath);
      && r.ok && r.ctx.counter == 0 && r.ctx.feature.Some?
      && r.ctx.feature.value.id == w.st.featuresMade
      && r.ctx.feature.value.creation == ctx.feature.value.creation
      && r.ctx.feature.value.backend == (if c.backend in ad.loads then c.backend else Fsr21)
      && r.ctx.feature.value.inited == initOk
      && (initOk ==> !Armed(r.w.st, handle) && r.w.st.newBackend == ""
                     && r.w.st.currentFeature == Some(r.ctx.feature.value.id))
      && (!initOk ==> Armed(r.w.st, handle) && r.w.st.currentFeature.None?
                      && r.w.st.newBackend in {DLSSD, XeSS, FSR21}
                      && (r.w.st.newBackend == DLSSD <==> target == DLSSD))
  {
    var r2 := SwitchToInit(w, handle, host, ctx, ad, initOk);
    AfterInit(r2.w, handle, r2.host, r2.ctx, ad, initOk);
  }

  /**
   * Who owns the snapshot once a switch completes: a scratch table is
   * destroyed; the caller's own table, passed to a DLSS target, is kept
   * unless it carries the sentinel itself.
   */
  lemma {:induction false} FullSwitchReleasesScratchTable(w: World, handle: nat, host: ParamTable, ctx: ContextData, ad: Adapters)
    requires Shape(ctx, Armed(w.st, handle)) && Armed(w.st, handle) && ctx.counter == 0
    ensures var r := Run3(w, handle, host, ctx, ad, true);
      var target := NormalizeTarget(w.st.newBackend, w.cfg.dlssEnabled, w.cfg.dx12Upscaler);
      var scratch := Snapshot(NewScratchTable(Dx12Provider), ctx.feature.value.creation);
      && (!IsPassthrough(target) ==>
            r.ctx.createParams.None? && r.w.st.destroyedTables == w.st.destroyedTables + [scratch])
      && (IsPassthrough(target) && !OwnedBySentinel(host) ==>
            r.ctx.createParams.Some? && r.ctx.createParams.value.origin == host.origin
            && r.w.st.destroyedTables == w.st.destroyedTables)
  {
    var r2 := SwitchToInit(w, handle, host, ctx, ad, true);
    ChangeFeatureInit(r2.w, handle, r2.host, r2.ctx, ad, true);
    assert OwnedBySentinel(NewScratchTable(Dx12Provider));
    SnapshotKeepsOwner(NewScratchTable(Dx12Provider), ctx.feature.value.creation);
  }
}
