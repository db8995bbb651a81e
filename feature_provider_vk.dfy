/**
 * FeatureProvider_Vk (OptiScaler/upscalers/FeatureProvider_Vk.cpp): building
 * a Vulkan upscaler from a backend name, and the three-call state machine
 * that replaces a handle's upscaler.
 *
 * `GetFeature` behaves as the Vulkan provider's does (FSR 2.2 in place of an
 * unrecognised or unavailable name, the requested name recorded, the
 * result being whether the kept instance loaded); a failed `Init` or an
 * unloaded module re-arms the switch as the DX12 provider does.
 */
module FeatureProviderVk {
  import opened Wrappers
  import opened SysUtils
  import opened Upscalers

  // ---------------------------------------------------------------------------
  // GetFeature
  // ---------------------------------------------------------------------------

  /** The names the Vulkan provider builds without consulting the DLSS settings. */
  predicate IsVkName(name: string) {
    name in {XeSS, FSR21, FSR22, FSR31}
  }

  /** The `do { ... } while (false)` chain: the backend built first. */
  function Select(name: string, dlssEnabled: bool, dlssPath: bool, dlssdPath: bool): (b: Backend)
    ensures IsVkName(name) ==> KeyOf(b) == name
    ensures b == DlssNative <==> name == DLSS && dlssEnabled && dlssPath
    ensures b == DlssdNative <==> name == DLSSD && dlssEnabled && dlssdPath
    ensures !IsVkName(name) && b != DlssNative && b != DlssdNative ==> b == Fsr22
  {
    if name == XeSS then XeSSNative
    else if name == FSR21 then Fsr21
    else if name == FSR22 then Fsr22
    else if name == FSR31 then Fsr31
    else if dlssEnabled then
      if name == DLSS && dlssPath then DlssNative
      else if name == DLSSD && dlssdPath then DlssdNative
      else Fsr22
    else Fsr22
  }

  /**
   * `GetFeature`: the selected backend when its module loads, recording the
   * requested name (DLSSD shown as DLSS); otherwise FSR 2.2, recording
   * "fsr22" if that loads. The result is whether the kept instance loaded.
   */
  function GetFeatureSpec(w: World, name: string, handle: nat, params: ParamTable, ad: Adapters): (r: Built)
    ensures r.ok <==> r.feature.loaded
    ensures r.feature == Construct(w.st.featuresMade, handle, r.feature.backend, params, ad)
    ensures r.w.st == w.st.(featuresMade := w.st.featuresMade + 1)
    ensures r.w.cfg == w.cfg.(vulkanUpscaler := r.w.cfg.vulkanUpscaler)
  {
    var b := Select(name, w.cfg.dlssEnabled, w.st.dlssPath, w.st.dlssdPath);
    var st' := w.st.(featuresMade := w.st.featuresMade + 1);
    if b in ad.loads then
      var f := Construct(w.st.featuresMade, handle, b, params, ad);
      Built(true, f, World(st', w.cfg.(vulkanUpscaler := w.cfg.vulkanUpscaler.Assign(DisplayName(name)))))
    else
      var f := Construct(w.st.featuresMade, handle, Fsr22, params, ad);
      if f.loaded then Built(true, f, World(st', w.cfg.(vulkanUpscaler := w.cfg.vulkanUpscaler.Assign(FSR22))))
      else Built(false, f, World(st', w.cfg))
  }

  /** DLSS is built exactly when asked for, enabled, found on disk and loaded. */
  lemma GetFeatureDlssGate(w: World, name: string, handle: nat, params: ParamTable, ad: Adapters)
    ensures var r := GetFeatureSpec(w, name, handle, params, ad);
      (r.feature.backend == DlssNative <==>
        name == DLSS && w.cfg.dlssEnabled && w.st.dlssPath && DlssNative in ad.loads)
      && (r.feature.backend == DlssdNative <==>
        name == DLSSD && w.cfg.dlssEnabled && w.st.dlssdPath && DlssdNative in ad.loads)
  {
  }

  /**
   * When the first instance loads, the name recorded is the one asked for,
   * even when the name was not recognised or DLSS was unavailable and
   * FSR 2.2 was built in its place ("dlss" with DLSS disabled, "xess_12").
   */
  lemma GetFeatureRecordsRequestedName(w: World, name: string, handle: nat, params: ParamTable, ad: Adapters)
    requires Select(name, w.cfg.dlssEnabled, w.st.dlssPath, w.st.dlssdPath) in ad.loads
    ensures var r := GetFeatureSpec(w, name, handle, params, ad);
      && r.ok && r.w.cfg.vulkanUpscaler.Is(DisplayName(name))
      && (IsVkName(name) ==> KeyOf(r.feature.backend) == name)
      && (!IsVkName(name) && name != DLSS && name != DLSSD ==> r.feature.backend == Fsr22)
  {
  }

  /**
   * When the first instance does not load, FSR 2.2 replaces it; the call
   * succeeds, recording "fsr22", exactly when FSR 2.2 loads, and otherwise
   * leaves the setting alone.
   */
  lemma GetFeatureFallback(w: World, name: string, handle: nat, params: ParamTable, ad: Adapters)
    requires Select(name, w.cfg.dlssEnabled, w.st.dlssPath, w.st.dlssdPath) !in ad.loads
    ensures var r := GetFeatureSpec(w, name, handle, params, ad);
      && r.feature.backend == Fsr22
      && (r.ok <==> Fsr22 in ad.loads)
      && (r.ok ==> r.w.cfg.vulkanUpscaler.Is(FSR22))
      && (!r.ok ==> r.w.cfg == w.cfg)
  {
  }

  /** The instance kept, and the setting: unchanged, or set to a name other than "dlssd". */
  lemma GetFeatureKeeps(w: World, name: string, handle: nat, params: ParamTable, ad: Adapters)
    ensures var r := GetFeatureSpec(w, name, handle, params, ad);
      var b := Select(name, w.cfg.dlssEnabled, w.st.dlssPath, w.st.dlssdPath);
      && r.feature.backend == (if b in ad.loads then b else Fsr22)
      && (r.w.cfg.vulkanUpscaler == w.cfg.vulkanUpscaler
          || (r.w.cfg.vulkanUpscaler.value.Some? && r.w.cfg.vulkanUpscaler.value.value != DLSSD))
  {
  }

  /** `FeatureProvider_Vk::GetFeature`. */
  method GetFeature(st: State, cfg: Config, name: string, handle: nat, params: ParamTable, ad: Adapters)
    returns (ok: bool, feature: Feature)
    modifies st, cfg
    ensures var r := GetFeatureSpec(old(WorldOf(st, cfg)), name, handle, params, ad);
      ok == r.ok && feature == r.feature && WorldOf(st, cfg) == r.w
  {
    var upscalerName := name;
    var backend := Select(name, cfg.dlssEnabled, st.dlssPath, st.dlssdPath);
    var id := st.NextFeatureId();
    feature, upscalerName := Build(cfg, id, handle, upscalerName, backend, params, ad);

    ok := feature.loaded;
    if ok {
      RecordUpscaler(cfg, upscalerName);
    }
  }

  /**
   * The first instance, or FSR 2.2 in its place when its module did not
   * load; the requested name is recorded as soon as the first one loads.
   */
  method Build(cfg: Config, id: nat, handle: nat, name: string, backend: Backend, params: ParamTable, ad: Adapters)
    returns (feature: Feature, upscalerName: string)
    modifies cfg
    ensures feature == Construct(id, handle, if backend in ad.loads then backend else Fsr22, params, ad)
    ensures upscalerName == if backend in ad.loads then name else FSR22
    ensures cfg.View() == if backend in ad.loads then old(cfg.View()).(vulkanUpscaler := old(cfg.vulkanUpscaler).Assign(name))
                          else old(cfg.View())
  {
    upscalerName := name;
    feature := Construct(id, handle, backend, params, ad);

    if !feature.loaded {
      feature := Construct(id, handle, Fsr22, params, ad);
      upscalerName := FSR22;
    } else {
      cfg.vulkanUpscaler := cfg.vulkanUpscaler.Assign(upscalerName);
    }
  }

  /** Records the name of the upscaler built, DLSSD shown as DLSS. */
  method RecordUpscaler(cfg: Config, upscalerName: string)
    modifies cfg
    ensures cfg.View() == old(cfg.View()).(vulkanUpscaler := old(cfg.vulkanUpscaler).Assign(DisplayName(upscalerName)))
  {
    var shown := upscalerName;
    if shown == DLSSD {
      shown := DLSS;
    }
    cfg.vulkanUpscaler := cfg.vulkanUpscaler.Assign(shown);
  }

  // ---------------------------------------------------------------------------
  // ChangeFeature
  // ---------------------------------------------------------------------------

  /** The Vulkan provider's settle delay before an instance is destroyed, in milliseconds. */
  const TeardownDelay: nat := 1000

  /**
   * Phase 1, with `newBackend` already normalised: with a live instance,
   * snapshot its creation values, settle, destroy it and null
   * `currentFeature`; without one, abandon the switch.
   */
  function TeardownSpec(w: World, handle: nat, host: ParamTable, ctx: ContextData): (r: Changed)
    ensures r.ok && r.w.cfg == w.cfg
    ensures forall h :: h != handle ==> Armed(r.w.st, h) == Armed(w.st, h)
  {
    var target := w.st.newBackend;
    match ctx.feature
    case Some(f) =>
      var table := Snapshot(if IsPassthrough(target) then host else NewScratchTable(VkProvider), f.creation);
      var host' := if IsPassthrough(target) then table else host;
      var st' := w.st.(sleeps := w.st.sleeps + [TeardownDelay], currentFeature := None);
      Changed(true, ctx.(feature := None, createParams := Some(table)), host', World(st', w.cfg))
    case None =>
      var st' := SetArmed(w.st.(newBackend := ""), handle, false)
        .(destroyedTables := w.st.destroyedTables + TableList(ctx.createParams));
      Changed(true, ContextData(None, 0, None), host, World(st', w.cfg))
  }

  /** Phase 2: build the target from the snapshot; the result is `GetFeature`'s. */
  function RebuildSpec(w: World, handle: nat, host: ParamTable, ctx: ContextData, ad: Adapters): (r: Changed)
    requires ctx.createParams.Some?
    ensures r.ctx.feature.Some? && r.ctx.counter == ctx.counter && r.ctx.createParams == ctx.createParams
    ensures r.ok <==> r.ctx.feature.value.loaded
  {
    var b := GetFeatureSpec(w, w.st.newBackend, handle, ctx.createParams.value, ad);
    Changed(b.ok, ctx.(feature := Some(b.feature)), host, b.w)
  }

  /**
   * Phase 3: `Init` the new instance and reset the counter. A failed `Init`
   * or an unloaded module re-arms the flag towards the retry target and
   * stops; a success disarms, releases a sentinel-marked table, and makes
   * the instance current.
   */
  function InitSpec(w: World, handle: nat, host: ParamTable, ctx: ContextData, initOk: bool): (r: Changed)
    requires ctx.feature.Some? && ctx.createParams.Some?
    ensures r.ok && r.w.cfg == w.cfg && r.ctx.counter == 0 && r.ctx.feature.Some?
    ensures forall h :: h != handle ==> Armed(r.w.st, h) == Armed(w.st, h)
  {
    var f := ctx.feature.value.(inited := initOk);
    if !initOk || !f.loaded then
      var st' := SetArmed(w.st.(newBackend := RetryTarget(w.st.newBackend, w.cfg.vulkanUpscaler)), handle, true);
      Changed(true, ContextData(Some(f), 0, ctx.createParams), host, World(st', w.cfg))
    else
      var params := ctx.createParams.value;
      var st1 := SetArmed(w.st.(newBackend := ""), handle, false);
      var st2 := if OwnedBySentinel(params) then st1.(destroyedTables := st1.destroyedTables + [params]) else st1;
      var kept := if OwnedBySentinel(params) then None else ctx.createParams;
      Changed(true, ContextData(Some(f), 0, kept), host, World(st2.(currentFeature := Some(f.id)), w.cfg))
  }

  /**
   * One call of `ChangeFeature` for `handle` (its caller checks the flag):
   * normalise the target, advance the counter and run the phase it names (a
   * counter past 3 only refreshes `currentFeature`).
   */
  function ChangeFeatureSpec(w: World, handle: nat, host: ParamTable, ctx: ContextData,
                             ad: Adapters, initOk: bool): (r: Changed)
    requires PhaseReady(ctx)
    ensures r.w.cfg == w.cfg.(vulkanUpscaler := r.w.cfg.vulkanUpscaler)
  {
    var target := NormalizeTarget(w.st.newBackend, w.cfg.dlssEnabled, w.cfg.vulkanUpscaler);
    var w' := World(w.st.(newBackend := target), w.cfg);
    var c := ctx.(counter := ctx.counter + 1);
    if c.counter == 1 then TeardownSpec(w', handle, host, c)
    else if c.counter == 2 then RebuildSpec(w', handle, host, c, ad)
    else if c.counter == 3 then InitSpec(w', handle, host, c, initOk)
    else Changed(true, c, host, World(w'.st.(currentFeature := IdOf(c.feature)), w'.cfg))
  }

  method Teardown(st: State, cfg: Config, handle: nat, host: ParamTable, ctx: ContextData)
    returns (ok: bool, ctx': ContextData, host': ParamTable)
    modifies st
    ensures var r := TeardownSpec(old(WorldOf(st, cfg)), handle, host, ctx);
      ok == r.ok && ctx' == r.ctx && host' == r.host && WorldOf(st, cfg) == r.w
  {
    ctx' := ctx;
    host' := host;
    if ctx'.feature.Some? {
      var dc := ctx'.feature.value;
      var passthrough := st.newBackend == DLSSD || st.newBackend == DLSS;
      var table := if passthrough then host else NewScratchTable(VkProvider);
      table := Snapshot(table, dc.creation);
      if passthrough {
        host' := table;  // the caller's table is written through
      }
      ctx' := ctx'.(createParams := Some(table));
      st.sleeps := st.sleeps + [TeardownDelay];
      ctx' := ctx'.(feature := None);
      st.currentFeature := None;
    } else {
      st.newBackend := "";
      st.SetChangeBackend(handle, false);
      if ctx'.createParams.Some? {
        st.DestroyTable(ctx'.createParams.value);
        ctx' := ctx'.(createParams := None);
      }
      ctx' := ctx'.(counter := 0);
    }
    ok := true;
  }

  method Rebuild(st: State, cfg: Config, handle: nat, host: ParamTable, ctx: ContextData, ad: Adapters)
    returns (ok: bool, ctx': ContextData, host': ParamTable)
    requires ctx.createParams.Some?
    modifies st, cfg
    ensures var r := RebuildSpec(old(WorldOf(st, cfg)), handle, host, ctx, ad);
      ok == r.ok && ctx' == r.ctx && host' == r.host && WorldOf(st, cfg) == r.w
  {
    host' := host;
    ctx' := ctx.(feature := None);
    var built, feature := GetFeature(st, cfg, st.newBackend, handle, ctx'.createParams.value, ad);
    ctx' := ctx'.(feature := Some(feature));
    if !built {
      return false, ctx', host';
    }
    ok := true;
  }

  method InitPhase(st: State, cfg: Config, handle: nat, host: ParamTable, ctx: ContextData, initOk: bool)
    returns (ok: bool, ctx': ContextData, host': ParamTable)
    requires ctx.feature.Some? && ctx.createParams.Some?
    modifies st
    ensures var r := InitSpec(old(WorldOf(st, cfg)), handle, host, ctx, initOk);
      ok == r.ok && ctx' == r.ctx && host' == r.host && WorldOf(st, cfg) == r.w
  {
    host' := host;
    ctx' := ctx.(feature := Some(ctx.feature.value.(inited := initOk)));
    ctx' := ctx'.(counter := 0);

    if !initOk || !ctx'.feature.value.loaded {
      if st.newBackend != DLSSD {
        if cfg.vulkanUpscaler.Is(DLSS) {
          st.newBackend := XeSS;
        } else {
          st.newBackend := FSR21;
        }
      } else {
        st.newBackend := DLSSD;  // retry DLSSD
      }
      st.SetChangeBackend(handle, true);
      return true, ctx', host';  // NVSDK_NGX_Result_Success converts to true
    }

    st.newBackend := "";
    st.SetChangeBackend(handle, false);

    if Lookup(ctx'.createParams.value, ProjectID) == Some(1) {
      st.DestroyTable(ctx'.createParams.value);
      ctx' := ctx'.(createParams := None);
    }

    st.currentFeature := IdOf(ctx'.feature);
    ok := true;
  }

  /** `FeatureProvider_Vk::ChangeFeature`; `ContextData` is passed and returned by value. */
  method ChangeFeature(st: State, cfg: Config, handle: nat, host: ParamTable, ctx: ContextData,
                       ad: Adapters, initOk: bool)
    returns (ok: bool, ctx': ContextData, host': ParamTable)
    requires PhaseReady(ctx)
    modifies st, cfg
    ensures var r := ChangeFeatureSpec(old(WorldOf(st, cfg)), handle, host, ctx, ad, initOk);
      ok == r.ok && ctx' == r.ctx && host' == r.host && WorldOf(st, cfg) == r.w
  {
    if st.newBackend == "" || (!cfg.dlssEnabled && st.newBackend == DLSS) {
      st.newBackend := cfg.vulkanUpscaler.ValueOrDefault();
    }

    ctx' := ctx.(counter := ctx.counter + 1);

    if ctx'.counter == 1 {
      ok, ctx', host' := Teardown(st, cfg, handle, host, ctx');
    } else if ctx'.counter == 2 {
      ok, ctx', host' := Rebuild(st, cfg, handle, host, ctx', ad);
    } else if ctx'.counter == 3 {
      ok, ctx', host' := InitPhase(st, cfg, handle, host, ctx', initOk);
    } else {
      st.currentFeature := IdOf(ctx'.feature);
      ok, host' := true, host;
    }
  }

  // ---------------------------------------------------------------------------
  // Properties of the switch
  // ---------------------------------------------------------------------------

  /** On an armed entry, a call keeps the shape of a switch at rest or in progress. */
  lemma ChangeFeatureKeepsShape(w: World, handle: nat, host: ParamTable, ctx: ContextData, ad: Adapters, initOk: bool)
    requires Shape(ctx, Armed(w.st, handle)) && Armed(w.st, handle)
    ensures PhaseReady(ctx)
    ensures var r := ChangeFeatureSpec(w, handle, host, ctx, ad, initOk);
      Shape(r.ctx, Armed(r.w.st, handle)) && r.ctx.counter == (ctx.counter + 1) % 3
  {
  }

  /** A call touches no other handle's flag and no setting but the recorded upscaler name. */
  lemma ChangeFeatureIsLocal(w: World, handle: nat, host: ParamTable, ctx: ContextData, ad: Adapters, initOk: bool)
    requires PhaseReady(ctx)
    ensures var r := ChangeFeatureSpec(w, handle, host, ctx, ad, initOk);
      && (forall h :: h != handle ==> Armed(r.w.st, h) == Armed(w.st, h))
      && r.w.cfg == w.cfg.(vulkanUpscaler := r.w.cfg.vulkanUpscaler)
      && (r.w.cfg.vulkanUpscaler != w.cfg.vulkanUpscaler ==> ctx.counter == 1)
  {
  }

  /**
   * Phase 1 on a live instance: the snapshot goes into the caller's table for
   * a DLSS target and into a fresh `OptiVk` table otherwise; the provider
   * always settles for one second; the instance is gone.
   */
  lemma ChangeFeatureTeardown(w: World, handle: nat, host: ParamTable, ctx: ContextData, ad: Adapters, initOk: bool)
    requires ctx.counter == 0 && ctx.feature.Some?
    ensures var r := ChangeFeatureSpec(w, handle, host, ctx, ad, initOk);
      var target := NormalizeTarget(w.st.newBackend, w.cfg.dlssEnabled, w.cfg.vulkanUpscaler);
      && r.ok && r.ctx.counter == 1 && r.ctx.feature.None? && r.ctx.createParams.Some?
      && ReadCreation(r.ctx.createParams.value) == ctx.feature.value.creation
      && (IsPassthrough(target) ==> r.ctx.createParams.value.origin == host.origin && r.host == r.ctx.createParams.value)
      && (!IsPassthrough(target) ==> r.ctx.createParams.value.origin == ScratchTable(VkProvider) && r.host == host)
      && r.w.st == w.st.(newBackend := target, currentFeature := None, sleeps := w.st.sleeps + [1000])
      && r.w.cfg == w.cfg
  {
    var target := NormalizeTarget(w.st.newBackend, w.cfg.dlssEnabled, w.cfg.vulkanUpscaler);
    var base := if IsPassthrough(target) then host else NewScratchTable(VkProvider);
    SnapshotRoundTrip(base, ctx.feature.value.creation);
  }

  /** Phase 1 without an instance abandons the switch and destroys any table. */
  lemma ChangeFeatureAbandon(w: World, handle: nat, host: ParamTable, ctx: ContextData, ad: Adapters, initOk: bool)
    requires ctx.counter == 0 && ctx.feature.None?
    ensures var r := ChangeFeatureSpec(w, handle, host, ctx, ad, initOk);
      r.ok && r.ctx == EmptyContext && !Armed(r.w.st, handle) && r.w.st.newBackend == ""
      && r.w.st.destroyedTables == w.st.destroyedTables + TableList(ctx.createParams)
  {
  }

  /** Phase 2: what `GetFeature` builds from the snapshot is the entry's new instance. */
  lemma ChangeFeatureRebuild(w: World, handle: nat, host: ParamTable, ctx: ContextData, ad: Adapters, initOk: bool)
    requires ctx.counter == 1 && ctx.createParams.Some?
    ensures var r := ChangeFeatureSpec(w, handle, host, ctx, ad, initOk);
      var target := NormalizeTarget(w.st.newBackend, w.cfg.dlssEnabled, w.cfg.vulkanUpscaler);
      var b := GetFeatureSpec(World(w.st.(newBackend := target), w.cfg), target, handle, ctx.createParams.value, ad);
      r.ok == b.ok && r.ctx == ContextData(Some(b.feature), 2, ctx.createParams) && r.host == host && r.w == b.w
  {
  }

  /**
   * Phase 3: the counter returns to 0 whatever `Init` says. A failure (or an
   * unloaded module) re-arms the flag towards the retry target and leaves
   * `currentFeature` and the table alone; a success disarms, clears the
   * target, releases the table exactly when it carries the sentinel, and
   * makes the instance current.
   */
  lemma ChangeFeatureInit(w: World, handle: nat, host: ParamTable, ctx: ContextData, ad: Adapters, initOk: bool)
    requires ctx.counter == 2 && ctx.feature.Some? && ctx.createParams.Some?
    ensures var r := ChangeFeatureSpec(w, handle, host, ctx, ad, initOk);
      var target := NormalizeTarget(w.st.newBackend, w.cfg.dlssEnabled, w.cfg.vulkanUpscaler);
      var params := ctx.createParams.value;
      var failed := !initOk || !ctx.feature.value.loaded;
      && r.ok && r.ctx.counter == 0 && r.ctx.feature == Some(ctx.feature.value.(inited := initOk))
      && (failed ==> Armed(r.w.st, handle) && r.w.st.newBackend == RetryTarget(target, w.cfg.vulkanUpscaler)
                     && r.w.st.currentFeature == w.st.currentFeature
                     && r.ctx.createParams == ctx.createParams
                     && r.w.st.destroyedTables == w.st.destroyedTables)
      && (!failed ==> !Armed(r.w.st, handle) && r.w.st.newBackend == ""
                      && r.w.st.currentFeature == Some(ctx.feature.value.id)
                      && (OwnedBySentinel(params) ==>
                            r.ctx.createParams.None? && r.w.st.destroyedTables == w.st.destroyedTables + [params])
                      && (!OwnedBySentinel(params) ==>
                            r.ctx.createParams == ctx.createParams && r.w.st.destroyedTables == w.st.destroyedTables))
  {
  }

  /** The three calls of a switch, chained. */
  function Run3(w: World, handle: nat, host: ParamTable, ctx: ContextData, ad: Adapters, initOk: bool): Changed
    requires Shape(ctx, Armed(w.st, handle)) && Armed(w.st, handle) && ctx.counter == 0
  {
    ChangeFeatureKeepsShape(w, handle, host, ctx, ad, initOk);
    var r1 := ChangeFeatureSpec(w, handle, host, ctx, ad, initOk);
    ChangeFeatureKeepsShape(r1.w, handle, r1.host, r1.ctx, ad, initOk);
    var r2 := ChangeFeatureSpec(r1.w, handle, r1.host, r1.ctx, ad, initOk);
    ChangeFeatureKeepsShape(r2.w, handle, r2.host, r2.ctx, ad, initOk);
    ChangeFeatureSpec(r2.w, handle, r2.host, r2.ctx, ad, initOk)
  }

  /** The first call of a switch on an idle entry, as facts. */
  lemma AfterTeardown(w: World, handle: nat, host: ParamTable, ctx: ContextData, ad: Adapters, initOk: bool)
    returns (r1: Changed)
    requires Shape(ctx, Armed(w.st, handle)) && Armed(w.st, handle) && ctx.counter == 0
    ensures r1 == ChangeFeatureSpec(w, handle, host, ctx, ad, initOk)
    ensures Armed(r1.w.st, handle) && r1.ctx.counter == 1 && r1.ctx.feature.None? && r1.ctx.createParams.Some?
    ensures ReadCreation(r1.ctx.createParams.value) == ctx.feature.value.creation
    ensures r1.w.st.newBackend == NormalizeTarget(w.st.newBackend, w.cfg.dlssEnabled, w.cfg.vulkanUpscaler)
    ensures r1.w.st.currentFeature.None? && r1.w.st.featuresMade == w.st.featuresMade
    ensures r1.w.st.dlssPath == w.st.dlssPath && r1.w.st.dlssdPath == w.st.dlssdPath && r1.w.cfg == w.cfg
  {
    r1 := ChangeFeatureSpec(w, handle, host, ctx, ad, initOk);
    ChangeFeatureTeardown(w, handle, host, ctx, ad, initOk);
  }

  /** The second call of a switch, as facts. */
  lemma AfterRebuild(w: World, handle: nat, host: ParamTable, ctx: ContextData, ad: Adapters, initOk: bool)
    returns (r2: Changed)
    requires Armed(w.st, handle) && ctx.counter == 1 && ctx.createParams.Some?
    requires NormalizeTarget(w.st.newBackend, w.cfg.dlssEnabled, w.cfg.vulkanUpscaler) == w.st.newBackend
    ensures r2 == ChangeFeatureSpec(w, handle, host, ctx, ad, initOk)
    ensures Armed(r2.w.st, handle) && r2.ctx.counter == 2 && r2.ctx.feature.Some?
    ensures r2.ctx.createParams == ctx.createParams
    ensures r2.ctx.feature.value.id == w.st.featuresMade
    ensures r2.ctx.feature.value.creation == ReadCreation(ctx.createParams.value)
    ensures var b := Select(w.st.newBackend, w.cfg.dlssEnabled, w.st.dlssPath, w.st.dlssdPath);
      r2.ctx.feature.value.backend == (if b in ad.loads then b else Fsr22)
    ensures r2.w.st == w.st.(featuresMade := w.st.featuresMade + 1)
    ensures r2.w.cfg.vulkanUpscaler == w.cfg.vulkanUpscaler
      || (r2.w.cfg.vulkanUpscaler.value.Some? && r2.w.cfg.vulkanUpscaler.value.value != DLSSD)
  {
    r2 := ChangeFeatureSpec(w, handle, host, ctx, ad, initOk);
    assert World(w.st.(newBackend := w.st.newBackend), w.cfg) == w;
    ChangeFeatureRebuild(w, handle, host, ctx, ad, initOk);
    GetFeatureKeeps(w, w.st.newBackend, handle, ctx.createParams.value, ad);
  }

  /** The first two calls of a switch: torn down, then rebuilt from the snapshot. */
  lemma {:induction false} SwitchToInit(w: World, handle: nat, host: ParamTable, ctx: ContextData, ad: Adapters, initOk: bool)
    returns (r2: Changed)
    requires Shape(ctx, Armed(w.st, handle)) && Armed(w.st, handle) && ctx.counter == 0
    ensures Armed(r2.w.st, handle) && r2.ctx.counter == 2 && r2.ctx.feature.Some? && r2.ctx.createParams.Some?
    ensures Run3(w, handle, host, ctx, ad, initOk) == ChangeFeatureSpec(r2.w, handle, r2.host, r2.ctx, ad, initOk)
    ensures var target := NormalizeTarget(w.st.newBackend, w.cfg.dlssEnabled, w.cfg.vulkanUpscaler);
      var b := Select(target, w.cfg.dlssEnabled, w.st.dlssPath, w.st.dlssdPath);
      r2.ctx.feature.value.backend == (if b in ad.loads then b else Fsr22)
    ensures r2.ctx.feature.value.id == w.st.featuresMade
    ensures r2.ctx.feature.value.creation == ctx.feature.value.creation
    ensures r2.w.st.newBackend == NormalizeTarget(w.st.newBackend, w.cfg.dlssEnabled, w.cfg.vulkanUpscaler)
    ensures var t := r2.w.st.newBackend;
      NormalizeTarget(t, r2.w.cfg.dlssEnabled, r2.w.cfg.vulkanUpscaler) == DLSSD <==> t == DLSSD
    ensures r2.w.st.currentFeature.None?
  {
    var r1 := AfterTeardown(w, handle, host, ctx, ad, initOk);
    NormalizeTargetIdempotent(w.st.newBackend, w.cfg.dlssEnabled, w.cfg.vulkanUpscaler);
    r2 := AfterRebuild(r1.w, handle, r1.host, r1.ctx, ad, initOk);
    RenormalizedTargetIsDlssd(r1.w.st.newBackend, w.cfg.dlssEnabled, w.cfg.vulkanUpscaler, r2.w.cfg.vulkanUpscaler);
  }

  /**
   * Three calls on an armed, idle entry replace its instance with one built
   * from the old one's creation values. The switch completes when `Init`
   * succeeds on a loaded module; otherwise the flag is armed again towards
   * a fallback, which is DLSSD exactly when DLSSD failed, and nothing is
   * current.
   */
  lemma {:induction false} FullSwitch(w: World, handle: nat, host: ParamTable, ctx: ContextData, ad: Adapters, initOk: bool)
    requires Shape(ctx, Armed(w.st, handle)) && Armed(w.st, handle) && ctx.counter == 0
    ensures var r := Run3(w, handle, host, ctx, ad, initOk);
      var target := NormalizeTarget(w.st.newBackend, w.cfg.dlssEnabled, w.cfg.vulkanUpscaler);
      var b := Select(target, w.cfg.dlssEnabled, w.st.dlssPath, w.st.dlssdPath);
      var built := if b in ad.loads then b else Fsr22;
      var succeeded := initOk && built in ad.loads;
      && r.ok && r.ctx.counter == 0 && r.ctx.feature.Some?
      && r.ctx.feature.value.id == w.st.featuresMade
      && r.ctx.feature.value.creation == ctx.feature.value.creation
      && r.ctx.feature.value.backend == built
      && (succeeded ==> !Armed(r.w.st, handle) && r.w.st.newBackend == ""
                        && r.w.st.currentFeature == Some(r.ctx.feature.value.id))
      && (!succeeded ==> Armed(r.w.st, handle) && r.w.st.currentFeature.None?
                         && r.w.st.newBackend in {DLSSD, XeSS, FSR21}
                         && (r.w.st.newBackend == DLSSD <==> target == DLSSD))
  {
    var r2 := SwitchToInit(w, handle, host, ctx, ad, initOk);
    ChangeFeatureInit(r2.w, handle, r2.host, r2.ctx, ad, initOk);
  }
}
