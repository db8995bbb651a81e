/**
 * The DX12 NGX entry points (`NVNGX_DLSS_Dx12.cpp`): the handle registry
 * `Dx12Contexts` with the feature-creation, release and per-frame evaluate
 * calls, the upscaler a new SuperSampling handle starts on, and the init
 * calls with their already-inited guard and the `ScopedInit` re-entrancy
 * switch.
 *
 * The registry and the globals next to it are the fields of `Registry`; its
 * methods change them in place and are each proved equal to a function on
 * the values (`...Spec`), about which the lemmas speak. What the native NGX
 * runtime, the frame-generation mod, the command list and the upscaler
 * instance answer is passed in as an `Env`.
 */
module NvngxDlssDx12 {
  import opened Wrappers
  import opened SysUtils
  import opened Upscalers
  import Dx12 = FeatureProviderDx12

  /** The `NVSDK_NGX_Result` codes the entry points return themselves; a foreign call may return any of them. */
  datatype NgxResult = Success | Fail | FailFeatureNotFound | FailFeatureNotSupported | OtherResult(code: int)

  datatype FeatureKind = SuperSampling | RayReconstruction | FrameGeneration | OtherFeature(id: nat)

  /**
   * `DLSS_MOD_ID_OFFSET` and `DLSSG_MOD_ID_OFFSET`: handles below the first
   * belong to the native runtime, handles from the second on to the
   * frame-generation mod when it is the active input.
   */
  datatype IdRanges = IdRanges(modOffset: nat, dlssgOffset: nat)

  /** What the code outside this model answers during one call. */
  datatype Env = Env(
    nukems: bool,              // `activeFgInput == FGInput::Nukems`
    dlssgAvailable: bool,      // `DLSSGMod::isDx12Available()`
    nativeReady: bool,         // the native module and the NGX function the call forwards to are present
    nativeResult: NgxResult,   // what a forwarded native or mod call returns
    nativeInitOk: bool,        // a forwarded native init returned success
    device: bool,              // the `ID3D12Device*` an init call passes is non-null
    deviceFromCmdList: bool,   // `cmdList->GetDevice` yields a device
    initOk: bool,              // `IFeature_Dx12::Init` succeeds
    outputChanged: bool,       // `UpdateOutputResolution` reports a new output size
    evalOk: bool,              // `IFeature_Dx12::Evaluate` succeeds
    evalArms: bool)            // the instance's `Evaluate` requested a switch of its own handle

  /**
   * The registry and the file's globals: `Dx12Contexts`, `evalCounter`,
   * whether `D3D12Device` is set, `contextRendering`, `_skipInit`, the next
   * id `IFeature::GetNextHandleId` hands out, whether the native runtime is
   * inited (`NVNGXProxy::IsDx12Inited`), how many native init calls were
   * made, and the application and project ids recorded in `State`.
   */
  datatype RegView = RegView(
    contexts: map<nat, ContextData>, evalCounter: int, hasDevice: bool,
    contextRendering: bool, nextHandleId: nat, boot: BootView)

  /** The init calls' part of the globals. */
  datatype BootView = BootView(
    skipInit: bool, proxyInited: bool, nativeInitCalls: nat, appId: nat, projectId: string)

  datatype Sys = Sys(reg: RegView, w: World)

  datatype Outcome = Outcome(res: NgxResult, s: Sys)

  /** A create call's result, state, and the handle id it wrote to `*OutHandle`, if it wrote one itself. */
  datatype Created = Created(res: NgxResult, s: Sys, handle: Option<nat>)

  /** An evaluate call's result, state, and the caller's parameter table as the call leaves it. */
  datatype Evaluated = Evaluated(res: NgxResult, s: Sys, host: ParamTable)

  /** An entry is at rest or mid-switch (see `Shape`): the one fact the evaluate path relies on. */
  predicate Consistent(s: Sys, h: nat) {
    h in s.reg.contexts ==> Shape(s.reg.contexts[h], Armed(s.w.st, h))
  }

  /**
   * The registry invariant: every handle is one this layer handed out (at
   * or above the native range, below the next id) and its entry is
   * consistent.
   */
  predicate Inv(s: Sys, ids: IdRanges) {
    && ids.modOffset <= s.reg.nextHandleId
    && (forall h :: h in s.reg.contexts ==> ids.modOffset <= h < s.reg.nextHandleId)
    && (forall h :: h in s.reg.contexts ==> Consistent(s, h))
  }

  // ---------------------------------------------------------------------------
  // GetUpscalerBackend
  // ---------------------------------------------------------------------------

  /**
   * The upscaler a new SuperSampling handle asks for: the configured
   * `Dx12Upscaler` when it is set; otherwise DLSS when DLSS is enabled and
   * the native runtime is inited; otherwise XeSS.
   */
  function GetUpscalerBackend(dlssEnabled: bool, proxyInited: bool, configured: ConfigString): (r: string)
    ensures configured.value.Some? ==> r == configured.value.value
    ensures configured.value.None? ==> (r == DLSS <==> dlssEnabled && proxyInited)
    ensures configured.value.None? ==> r in {DLSS, XeSS}
  {
    var name := if dlssEnabled && proxyInited then DLSS else XeSS;
    if configured.value.Some? then configured.value.value else name
  }

  // ---------------------------------------------------------------------------
  // Feature creation
  // ---------------------------------------------------------------------------

  /** Whether the root signatures are restored around the layer's own GPU work. */
  function RestoresSignatures(cfg: ConfigView): bool {
    cfg.restoreComputeSignature || cfg.restoreGraphicSignature
  }

  /** The upscaler a new handle asks `GetFeature` for: ray reconstruction always goes to DLSSD. */
  function RequestedName(s: Sys, kind: FeatureKind): (r: string)
    ensures kind != SuperSampling ==> r == DLSSD
  {
    if kind == SuperSampling
    then GetUpscalerBackend(s.w.cfg.dlssEnabled, s.reg.boot.proxyInited, s.w.cfg.dx12Upscaler)
    else DLSSD
  }

  /** A new entry: the handle id it was given, the state after `GetFeature`, and the instance built. */
  datatype Registered = Registered(h: nat, s: Sys, feature: Feature)

  /**
   * The registration step of `TryCreateOptiFeature`: take the next handle
   * id and give the new entry the instance `GetFeature` builds for the
   * requested upscaler. The provider's `GetFeature` never fails on DX12 (see
   * `Dx12.GetFeatureSpec`), so the erase-and-fail branch after it is never
   * taken.
   */
  function RegisterSpec(s: Sys, name: string, params: ParamTable, ad: Adapters): (r: Registered)
    ensures r.h == s.reg.nextHandleId && r.s.reg.nextHandleId == r.h + 1
    ensures r.s.reg.contexts == s.reg.contexts[r.h := ContextData(Some(r.feature), 0, None)]
    ensures !r.feature.inited && r.feature.handle == r.h && r.feature.id == s.w.st.featuresMade
    ensures r.s.w.st == s.w.st.(featuresMade := s.w.st.featuresMade + 1)
    ensures r.s.reg == s.reg.(nextHandleId := r.h + 1, contexts := r.s.reg.contexts)
  {
    var h := s.reg.nextHandleId;
    var b := Dx12.GetFeatureSpec(s.w, name, h, params, ad);
    var reg := s.reg.(nextHandleId := h + 1, contexts := s.reg.contexts[h := ContextData(Some(b.feature), 0, None)]);
    Registered(h, Sys(reg, b.w), b.feature)
  }

  /**
   * The second half of `TryCreateOptiFeature`: without a device the entry
   * is dropped again (the id is spent and already written out); otherwise
   * the instance is initialised and either becomes the current feature or
   * arms its handle for a switch to FSR 2.1.
   */
  function FinishCreateSpec(s: Sys, h: nat, f0: Feature, restore: bool, fx: Env): (r: Created)
    ensures r.handle == Some(h) && r.s.reg.nextHandleId == s.reg.nextHandleId
    ensures r.res == Success || r.res == Fail
    ensures r.res == Fail <==> !s.reg.hasDevice && !fx.deviceFromCmdList
    ensures forall k :: k != h ==> Armed(r.s.w.st, k) == Armed(s.w.st, k)
    ensures forall k :: k != h ==> (k in r.s.reg.contexts <==> k in s.reg.contexts)
    ensures forall k :: k != h && k in s.reg.contexts ==> r.s.reg.contexts[k] == s.reg.contexts[k]
    ensures h in r.s.reg.contexts <==> r.res == Success
    ensures h in r.s.reg.contexts ==> r.s.reg.contexts[h] == ContextData(Some(f0.(inited := fx.initOk)), 0, None)
    ensures r.res == Fail ==> r.s.w == s.w && r.s.reg.evalCounter == s.reg.evalCounter
    ensures r.res == Success && fx.initOk ==>
      r.s.w.st == s.w.st.(currentFeature := Some(f0.id)) && r.s.reg.evalCounter == 0
    ensures r.res == Success && !fx.initOk ==>
      && r.s.w.st.newBackend == FSR21 && Armed(r.s.w.st, h)
      && r.s.w.st.currentFeature == s.w.st.currentFeature && r.s.reg.evalCounter == s.reg.evalCounter
    ensures r.s.reg.contextRendering == (if restore then false else s.reg.contextRendering)
  {
    var failed := !s.reg.hasDevice && !fx.deviceFromCmdList;
    var s2 := if failed then s.(reg := s.reg.(contexts := s.reg.contexts - {h})) else InitEntrySpec(s, h, f0, fx);
    var rendering := if restore then false else s2.reg.contextRendering;
    Created(if failed then Fail else Success, s2.(reg := s2.reg.(contextRendering := rendering)), Some(h))
  }

  /** With a device at hand: store it, initialise the instance, and make it current or arm the handle for FSR 2.1. */
  function InitEntrySpec(s: Sys, h: nat, f0: Feature, fx: Env): (r: Sys)
    ensures r.reg.contexts == s.reg.contexts[h := ContextData(Some(f0.(inited := fx.initOk)), 0, None)]
    ensures r.reg.nextHandleId == s.reg.nextHandleId && r.reg.contextRendering == s.reg.contextRendering
    ensures r.reg.hasDevice && r.reg.boot == s.reg.boot && r.w.cfg == s.w.cfg
    ensures forall k :: k != h ==> Armed(r.w.st, k) == Armed(s.w.st, k)
    ensures fx.initOk ==> r.w.st == s.w.st.(currentFeature := Some(f0.id)) && r.reg.evalCounter == 0
    ensures !fx.initOk ==> && r.w.st.newBackend == FSR21 && Armed(r.w.st, h)
                           && r.w.st.currentFeature == s.w.st.currentFeature
                           && r.reg.evalCounter == s.reg.evalCounter
  {
    var f := f0.(inited := fx.initOk);
    var st := if fx.initOk
      then s.w.st.(currentFeature := Some(f.id))
      else SetArmed(s.w.st.(newBackend := FSR21), h, true);
    var reg := s.reg.(contexts := s.reg.contexts[h := ContextData(Some(f), 0, None)], hasDevice := true,
                      evalCounter := if fx.initOk then 0 else s.reg.evalCounter);
    Sys(reg, World(st, s.w.cfg))
  }

  /** `TryCreateOptiFeature`. */
  function TryCreateSpec(s: Sys, kind: FeatureKind, params: ParamTable, fx: Env, ad: Adapters): (r: Created)
    ensures r.handle == Some(s.reg.nextHandleId) && r.s.reg.nextHandleId == s.reg.nextHandleId + 1
    ensures r.res == Success || r.res == Fail
    ensures r.res == Fail <==> !s.reg.hasDevice && !fx.deviceFromCmdList
  {
    var restore := RestoresSignatures(s.w.cfg);
    var s1 := s.(reg := s.reg.(contextRendering := restore || s.reg.contextRendering));
    var e := RegisterSpec(s1, RequestedName(s, kind), params, ad);
    FinishCreateSpec(e.s, e.h, e.feature, restore, fx)
  }

  /** `NVSDK_NGX_D3D12_CreateFeature`. */
  function CreateFeatureSpec(s: Sys, cmdList: bool, kind: FeatureKind, outHandle: bool,
                             params: ParamTable, fx: Env, ad: Adapters): (r: Created)
    ensures r.handle.Some? ==> kind in {SuperSampling, RayReconstruction}
    ensures !cmdList || !outHandle ==> r == Created(Fail, s, None)
    ensures kind !in {SuperSampling, RayReconstruction} ==> r.s == s && r.handle.None?
    ensures kind !in {SuperSampling, RayReconstruction} && cmdList && outHandle && !(fx.nukems && fx.dlssgAvailable && kind == FrameGeneration) ==>
      r.res == (if s.w.cfg.dlssEnabled && fx.nativeReady then fx.nativeResult else FailFeatureNotSupported)
    ensures cmdList && outHandle && kind in {SuperSampling, RayReconstruction} ==>
      && r.handle == Some(s.reg.nextHandleId)
      && (r.res == Success <==> s.reg.hasDevice || fx.deviceFromCmdList)
      && (r.res == Success ==> s.reg.nextHandleId in r.s.reg.contexts)
  {
    if !cmdList || !outHandle then Created(Fail, s, None)
    else if fx.nukems && fx.dlssgAvailable && kind == FrameGeneration then Created(fx.nativeResult, s, None)
    else if kind != SuperSampling && kind != RayReconstruction then
      Created(if s.w.cfg.dlssEnabled && fx.nativeReady then fx.nativeResult else FailFeatureNotSupported, s, None)
    else TryCreateSpec(s, kind, params, fx, ad)
  }

  /** The steps of `TryCreateSpec`, named so that the lemmas below can speak of them. */
  lemma TryCreateSteps(s: Sys, kind: FeatureKind, params: ParamTable, fx: Env, ad: Adapters)
    returns (e: Registered, restore: bool)
    ensures restore == RestoresSignatures(s.w.cfg)
    ensures e == RegisterSpec(s.(reg := s.reg.(contextRendering := restore || s.reg.contextRendering)),
                              RequestedName(s, kind), params, ad)
    ensures TryCreateSpec(s, kind, params, fx, ad) == FinishCreateSpec(e.s, e.h, e.feature, restore, fx)
  {
    restore := RestoresSignatures(s.w.cfg);
    e := RegisterSpec(s.(reg := s.reg.(contextRendering := restore || s.reg.contextRendering)),
                      RequestedName(s, kind), params, ad);
  }

  /** Without a device the new entry is dropped again: the registry holds what it held before. */
  lemma TryCreateFails(s: Sys, kind: FeatureKind, params: ParamTable, fx: Env, ad: Adapters)
    requires !s.reg.hasDevice && !fx.deviceFromCmdList
    ensures var r := TryCreateSpec(s, kind, params, fx, ad);
      r.res == Fail && r.s.reg.contexts == s.reg.contexts - {s.reg.nextHandleId}
  {
    var e, restore := TryCreateSteps(s, kind, params, fx, ad);
    assert e.s.reg.contexts - {e.h} == s.reg.contexts - {e.h};
  }

  /**
   * With a device the new entry holds the new instance: it is current after
   * a successful `Init`; after a failed one its handle is armed for a switch
   * to FSR 2.1 and the current feature is kept.
   */
  lemma TryCreateInits(s: Sys, kind: FeatureKind, params: ParamTable, fx: Env, ad: Adapters)
    requires s.reg.hasDevice || fx.deviceFromCmdList
    ensures var r := TryCreateSpec(s, kind, params, fx, ad); var h := s.reg.nextHandleId;
      && r.res == Success
      && r.s.reg.contexts.Keys == s.reg.contexts.Keys + {h}
      && r.s.reg.contexts[h].counter == 0 && r.s.reg.contexts[h].feature.Some?
      && var f := r.s.reg.contexts[h].feature.value;
         && f.handle == h && f.inited == fx.initOk && f.id == s.w.st.featuresMade
         && (fx.initOk ==> r.s.w.st.currentFeature == Some(f.id) && r.s.reg.evalCounter == 0)
         && (!fx.initOk ==> && r.s.w.st.newBackend == FSR21 && Armed(r.s.w.st, h)
                            && r.s.w.st.currentFeature == s.w.st.currentFeature)
  {
    var e, restore := TryCreateSteps(s, kind, params, fx, ad);
    var r := FinishCreateSpec(e.s, e.h, e.feature, restore, fx);
    assert r.s.reg.contexts.Keys == e.s.reg.contexts.Keys;
  }

  /** A create call touches no other entry and no other handle's flag, and leaves `contextRendering` lowered when it raised it. */
  lemma TryCreateIsLocal(s: Sys, kind: FeatureKind, params: ParamTable, fx: Env, ad: Adapters)
    ensures var r := TryCreateSpec(s, kind, params, fx, ad); var h := s.reg.nextHandleId;
      && (forall k :: k != h ==> Armed(r.s.w.st, k) == Armed(s.w.st, k))
      && (forall k :: k in s.reg.contexts && k != h ==> k in r.s.reg.contexts && r.s.reg.contexts[k] == s.reg.contexts[k])
      && r.s.reg.contextRendering == (if RestoresSignatures(s.w.cfg) then false else s.reg.contextRendering)
  {
    var e, restore := TryCreateSteps(s, kind, params, fx, ad);
    var r := FinishCreateSpec(e.s, e.h, e.feature, restore, fx);
    forall k | k != e.h
      ensures Armed(r.s.w.st, k) == Armed(s.w.st, k)
    {
      assert e.s.w.st.changeBackend == s.w.st.changeBackend;
    }
    forall k | k in s.reg.contexts && k != e.h
      ensures k in r.s.reg.contexts && r.s.reg.contexts[k] == s.reg.contexts[k]
    {
      assert e.s.reg.contexts[k] == s.reg.contexts[k];
    }
  }

  // ---------------------------------------------------------------------------
  // Feature release
  // ---------------------------------------------------------------------------

  /** `NVSDK_NGX_D3D12_ReleaseFeature`; `None` is a null handle. */
  function ReleaseFeatureSpec(s: Sys, ids: IdRanges, handle: Option<nat>, fx: Env): (r: Outcome)
    ensures r.s.reg == s.reg.(contexts := r.s.reg.contexts) && r.s.w.cfg == s.w.cfg
    ensures r.s.w.st == s.w.st.(currentFeature := r.s.w.st.currentFeature)
    ensures handle.None? ==> r == Outcome(Success, s)
    ensures handle.Some? && handle.value < ids.modOffset ==>
      r.s == s && r.res == (if s.w.cfg.dlssEnabled && fx.nativeReady then fx.nativeResult else FailFeatureNotFound)
    ensures handle.Some? && ids.modOffset <= handle.value && fx.nukems && handle.value >= ids.dlssgOffset ==>
      r == Outcome(fx.nativeResult, s)
    ensures handle.Some? && ids.modOffset <= handle.value && !(fx.nukems && handle.value >= ids.dlssgOffset) ==>
      && r.res == Success
      && (handle.value !in s.reg.contexts || s.reg.contexts[handle.value].feature.None? ==> r.s == s)
  {
    match handle
    case None => Outcome(Success, s)
    case Some(id) =>
      if id < ids.modOffset then
        Outcome(if s.w.cfg.dlssEnabled && fx.nativeReady then fx.nativeResult else FailFeatureNotFound, s)
      else if fx.nukems && id >= ids.dlssgOffset then Outcome(fx.nativeResult, s)
      else if id in s.reg.contexts && s.reg.contexts[id].feature.Some? then
        var f := s.reg.contexts[id].feature.value;
        var st := if s.w.st.currentFeature == Some(f.id) then s.w.st.(currentFeature := None) else s.w.st;
        Outcome(Success, Sys(s.reg.(contexts := s.reg.contexts - {id}), World(st, s.w.cfg)))
      else Outcome(Success, s)
  }

  // ---------------------------------------------------------------------------
  // Evaluation
  // ---------------------------------------------------------------------------

  /** The FSR 3.1+ instances resize their output without being rebuilt. */
  predicate IsFsr31OrLater(f: Feature): (r: bool)
    ensures r <==> && |f.name| >= 3 && f.name[..3] == "FSR"
                   && (f.version.major > 3 || (f.version.major == 3 && f.version.minor >= 1))
  {
    Fsr31Threshold_Ge(f.version);
    |f.name| >= 3 && f.name[..3] == "FSR" && VersionGe(f.version, Fsr31Threshold)
  }

  /** The switch branch of `TryEvaluateOptiFeature`: one `ChangeFeature` call on the entry, in place. */
  function SwitchEntrySpec(s: Sys, h: nat, params: ParamTable, fx: Env, ad: Adapters): (r: Evaluated)
    requires h in s.reg.contexts && PhaseReady(s.reg.contexts[h])
    ensures r.res == Success && r.s.reg.evalCounter == 0 && h in r.s.reg.contexts
  {
    var c := Dx12.ChangeFeatureSpec(s.w, h, params, s.reg.contexts[h], ad, fx.initOk);
    var reg := s.reg.(contexts := s.reg.contexts[h := c.ctx], evalCounter := 0, contextRendering := false);
    Evaluated(Success, Sys(reg, c.w), c.host)
  }

  /**
   * The run branch of `TryEvaluateOptiFeature`: an instance that failed to
   * initialise arms its handle for FSR 2.1 (unless FSR 2.1 is what is
   * configured); otherwise it becomes the current feature and evaluates.
   */
  function RunEntrySpec(s: Sys, h: nat, f: Feature, params: ParamTable, fx: Env): (r: Evaluated)
    ensures r.s.reg == s.reg.(contextRendering := r.s.reg.contextRendering) && r.s.w.cfg == s.w.cfg
    ensures forall k :: k != h ==> Armed(r.s.w.st, k) == Armed(s.w.st, k)
    ensures !f.inited && s.w.cfg.dx12Upscaler.ValueOrDefault() != FSR21 ==>
      && r.res == Success && r.s.reg == s.reg && r.host == params
      && r.s.w.st.newBackend == FSR21 && Armed(r.s.w.st, h)
      && r.s.w.st.currentFeature == s.w.st.currentFeature
    ensures f.inited || s.w.cfg.dx12Upscaler.ValueOrDefault() == FSR21 ==>
      && (r.res == Success <==> fx.evalOk)
      && r.s.w.st.currentFeature == Some(f.id)
  {
    if !f.inited && s.w.cfg.dx12Upscaler.ValueOrDefault() != FSR21 then
      Evaluated(Success, Sys(s.reg, World(SetArmed(s.w.st.(newBackend := FSR21), h, true), s.w.cfg)), params)
    else
      RunSpecKeepsOthers(s, h, f, params, fx);
      RunSpec(s, h, f, params, fx)
  }

  /**
   * The instance runs: it becomes current, the signatures are restored
   * around the call unless it is DLSSD, and the call may arm the handle.
   */
  function RunSpec(s: Sys, h: nat, f: Feature, params: ParamTable, fx: Env): (r: Evaluated)
    ensures r.s.reg == s.reg.(contextRendering := r.s.reg.contextRendering) && r.s.w.cfg == s.w.cfg
    ensures r.res == Success <==> fx.evalOk
    ensures r.s.w.st.currentFeature == Some(f.id) && r.host == params
    ensures fx.evalArms ==> Armed(r.s.w.st, h)
  {
    var restore := f.name != "DLSSD" && RestoresSignatures(s.w.cfg);
    var st1 := s.w.st.(currentFeature := Some(f.id));
    var st2 := if fx.evalArms then SetArmed(st1, h, true) else st1;
    var reg := s.reg.(contextRendering := if restore then false else s.reg.contextRendering);
    Evaluated(if fx.evalOk then Success else Fail, Sys(reg, World(st2, s.w.cfg)), params)
  }

  /** A run can arm only its own handle. */
  lemma RunSpecKeepsOthers(s: Sys, h: nat, f: Feature, params: ParamTable, fx: Env)
    ensures forall k :: k != h ==> Armed(RunSpec(s, h, f, params, fx).s.w.st, k) == Armed(s.w.st, k)
  {
  }

  /**
   * `TryEvaluateOptiFeature`. An entry without an instance exists only
   * mid-switch, when its flag is armed, so the un-armed path always has an
   * instance to dereference.
   */
  function TryEvaluateSpec(s: Sys, h: nat, params: ParamTable, fx: Env, ad: Adapters): (r: Evaluated)
    requires Consistent(s, h)
    ensures h !in s.reg.contexts ==> r == Evaluated(FailFeatureNotFound, s, params)
  {
    if h !in s.reg.contexts then Evaluated(FailFeatureNotFound, s, params)
    else
      var ctx := s.reg.contexts[h];
      var reg1 := s.reg.(evalCounter := s.reg.evalCounter + 1);
      if s.w.cfg.skipFirstFrames.Some? && reg1.evalCounter < s.w.cfg.skipFirstFrames.value then
        Evaluated(Success, Sys(reg1, s.w), params)
      else
        DispatchSpec(Sys(reg1, s.w), h, params, fx, ad)
  }

  /**
   * Past the skipped frames: a pre-3.1 FSR instance whose output size
   * changed arms its handle; an armed handle takes a switch step, any other
   * runs its instance.
   */
  function DispatchSpec(s: Sys, h: nat, params: ParamTable, fx: Env, ad: Adapters): (r: Evaluated)
    requires h in s.reg.contexts && Consistent(s, h)
    ensures Armed(s.w.st, h) || ResizeArms(s.reg.contexts[h], fx) ==>
      r.res == Success && r.s.reg.evalCounter == 0 && !r.s.reg.contextRendering && h in r.s.reg.contexts
    ensures !Armed(s.w.st, h) && !ResizeArms(s.reg.contexts[h], fx) ==>
      && r.s.reg == s.reg.(contextRendering := r.s.reg.contextRendering) && r.s.w.cfg == s.w.cfg
      && r.host == params
  {
    var ctx := s.reg.contexts[h];
    var st1 := if ctx.feature.Some? && !IsFsr31OrLater(ctx.feature.value) && fx.outputChanged
      then SetArmed(s.w.st, h, true) else s.w.st;
    if Armed(st1, h) then
      SwitchEntrySpec(Sys(s.reg, World(st1, s.w.cfg)), h, params, fx, ad)
    else
      RunEntrySpec(s, h, ctx.feature.value, params, fx)
  }

  /** `NVSDK_NGX_D3D12_EvaluateFeature`; `None` is a null handle. */
  function EvaluateFeatureSpec(s: Sys, ids: IdRanges, handle: Option<nat>, cmdList: bool,
                               params: ParamTable, fx: Env, ad: Adapters): (r: Evaluated)
    requires handle.Some? ==> Consistent(s, handle.value)
    ensures handle.None? ==> r.res == FailFeatureNotFound && r.s == s
    ensures handle.Some? && !cmdList ==> r.res == Fail && r.s == s
    ensures handle.Some? && cmdList && handle.value < ids.modOffset ==>
      r.s == s && r.res == (if s.w.cfg.dlssEnabled && fx.nativeReady then fx.nativeResult else FailFeatureNotFound)
    ensures handle.Some? && cmdList && ids.modOffset <= handle.value && fx.nukems && handle.value >= ids.dlssgOffset ==>
      r == Evaluated(fx.nativeResult, s, params)
    ensures handle.Some? && cmdList && ids.modOffset <= handle.value && !(fx.nukems && handle.value >= ids.dlssgOffset) ==>
      r == TryEvaluateSpec(s, handle.value, params, fx, ad)
  {
    if handle.None? then Evaluated(FailFeatureNotFound, s, params)
    else if !cmdList then Evaluated(Fail, s, params)
    else if handle.value < ids.modOffset then
      Evaluated(if s.w.cfg.dlssEnabled && fx.nativeReady then fx.nativeResult else FailFeatureNotFound, s, params)
    else if fx.nukems && handle.value >= ids.dlssgOffset then Evaluated(fx.nativeResult, s, params)
    else TryEvaluateSpec(s, handle.value, params, fx, ad)
  }

  /** Whether the frame is still among the `SkipFirstFrames` skipped, once `evalCounter` has counted it. */
  predicate Skipped(s: Sys) {
    s.w.cfg.skipFirstFrames.Some? && s.reg.evalCounter + 1 < s.w.cfg.skipFirstFrames.value
  }

  /** Whether the instance is a pre-3.1 FSR (or other) upscaler whose output size changed. */
  predicate ResizeArms(ctx: ContextData, fx: Env) {
    ctx.feature.Some? && !IsFsr31OrLater(ctx.feature.value) && fx.outputChanged
  }

  /** A skipped frame only counts: Success, `evalCounter` one up, nothing dispatched, nothing else changed. */
  lemma EvaluateSkipsFirstFrames(s: Sys, h: nat, params: ParamTable, fx: Env, ad: Adapters)
    requires Consistent(s, h) && h in s.reg.contexts && Skipped(s)
    ensures TryEvaluateSpec(s, h, params, fx, ad)
         == Evaluated(Success, s.(reg := s.reg.(evalCounter := s.reg.evalCounter + 1)), params)
  {
  }

  /**
   * Past the skipped frames, an armed handle, or one whose pre-3.1 instance
   * reports a new output size, takes one `ChangeFeature` step instead of
   * evaluating: Success, `evalCounter` reset, `contextRendering` lowered,
   * and the entry and state are what the provider's switch makes of them.
   */
  lemma EvaluateSwitches(s: Sys, h: nat, params: ParamTable, fx: Env, ad: Adapters)
    requires Consistent(s, h) && h in s.reg.contexts && !Skipped(s)
    requires Armed(s.w.st, h) || ResizeArms(s.reg.contexts[h], fx)
    ensures var r := TryEvaluateSpec(s, h, params, fx, ad);
      var c := Dx12.ChangeFeatureSpec(World(SetArmed(s.w.st, h, true), s.w.cfg), h, params, s.reg.contexts[h], ad, fx.initOk);
      && r.res == Success && r.s.reg.evalCounter == 0 && !r.s.reg.contextRendering
      && r.s.reg.contexts == s.reg.contexts[h := c.ctx] && r.s.w == c.w && r.host == c.host
  {
    var s1 := s.(reg := s.reg.(evalCounter := s.reg.evalCounter + 1));
    assert TryEvaluateSpec(s, h, params, fx, ad) == DispatchSpec(s1, h, params, fx, ad);
    if !ResizeArms(s.reg.contexts[h], fx) {
      assert s.w.st.changeBackend[h := true] == s.w.st.changeBackend;
    }
  }

  /**
   * A resize of a pre-3.1 instance on an idle handle starts a switch: the
   * instance is torn down into a snapshot of its creation values and the
   * handle stays armed for the next frame.
   */
  lemma EvaluateArmsOnResize(s: Sys, h: nat, params: ParamTable, fx: Env, ad: Adapters)
    requires Consistent(s, h) && h in s.reg.contexts && !Skipped(s)
    requires !Armed(s.w.st, h) && ResizeArms(s.reg.contexts[h], fx)
    ensures var r := TryEvaluateSpec(s, h, params, fx, ad);
      && r.res == Success && r.s.reg.evalCounter == 0 && Armed(r.s.w.st, h)
      && h in r.s.reg.contexts && r.s.reg.contexts[h].counter == 1 && r.s.reg.contexts[h].feature.None?
      && ReadCreation(r.s.reg.contexts[h].createParams.value) == s.reg.contexts[h].feature.value.creation
  {
    var w1 := World(SetArmed(s.w.st, h, true), s.w.cfg);
    EvaluateSwitches(s, h, params, fx, ad);
    Dx12.ChangeFeatureTeardown(w1, h, params, s.reg.contexts[h], ad, fx.initOk);
  }

  /**
   * An instance that failed to initialise, on a handle that is not
   * switching, falls back to FSR 2.1 unless FSR 2.1 is what is configured:
   * Success without evaluating, the handle armed towards FSR 2.1, and the
   * registry only counting the frame.
   */
  lemma EvaluateFallsBackWhenNotInited(s: Sys, h: nat, params: ParamTable, fx: Env, ad: Adapters)
    requires Consistent(s, h) && h in s.reg.contexts && !Skipped(s)
    requires !Armed(s.w.st, h) && !ResizeArms(s.reg.contexts[h], fx)
    requires !s.reg.contexts[h].feature.value.inited && s.w.cfg.dx12Upscaler.ValueOrDefault() != FSR21
    ensures var r := TryEvaluateSpec(s, h, params, fx, ad);
      && r.res == Success && r.s.reg == s.reg.(evalCounter := s.reg.evalCounter + 1)
      && r.s.w.st.newBackend == FSR21 && Armed(r.s.w.st, h)
      && r.s.w.st.currentFeature == s.w.st.currentFeature
  {
  }

  /**
   * Otherwise the instance evaluates: it becomes the current feature, the
   * call answers Success exactly when `Evaluate` succeeds, the handle is
   * armed exactly when the instance asked for a switch, and the registry
   * only counts the frame.
   */
  lemma EvaluateRuns(s: Sys, h: nat, params: ParamTable, fx: Env, ad: Adapters)
    requires Consistent(s, h) && h in s.reg.contexts && !Skipped(s)
    requires !Armed(s.w.st, h) && !ResizeArms(s.reg.contexts[h], fx)
    requires s.reg.contexts[h].feature.value.inited || s.w.cfg.dx12Upscaler.ValueOrDefault() == FSR21
    ensures var r := TryEvaluateSpec(s, h, params, fx, ad);
      && (r.res == Success <==> fx.evalOk)
      && r.s.w.st.currentFeature == Some(s.reg.contexts[h].feature.value.id)
      && (Armed(r.s.w.st, h) <==> fx.evalArms)
      && r.s.reg.contexts == s.reg.contexts && r.s.reg.evalCounter == s.reg.evalCounter + 1
  {
  }

  // ---------------------------------------------------------------------------
  // Init
  // ---------------------------------------------------------------------------

  /**
   * The block each init call opens with: when DLSS is enabled and no outer
   * init call is running, forward to the native runtime and mark it inited
   * on success.
   */
  function NativeInit(b: BootView, cfg: ConfigView, fx: Env): (r: BootView)
    ensures b.skipInit || !cfg.dlssEnabled ==> r == b
    ensures r == b.(nativeInitCalls := r.nativeInitCalls, proxyInited := r.proxyInited)
    ensures r.nativeInitCalls <= b.nativeInitCalls + 1
  {
    if cfg.dlssEnabled && !b.skipInit && fx.nativeReady then
      b.(nativeInitCalls := b.nativeInitCalls + 1, proxyInited := b.proxyInited || fx.nativeInitOk)
    else b
  }

  /** `NVSDK_NGX_D3D12_Init_Ext`: records the application id, then initialises once. */
  function InitExtSpec(s: Sys, appId: nat, fx: Env): (r: Outcome)
    ensures r.res == Success && r.s.w.st.nvngxDx12Inited && r.s.reg.boot.appId == appId
    ensures r.s.reg.boot.skipInit == s.reg.boot.skipInit
  {
    var boot := NativeInit(s.reg.boot.(appId := appId), s.w.cfg, fx);
    if s.w.st.nvngxDx12Inited then Outcome(Success, Sys(s.reg.(boot := boot), s.w))
    else Outcome(Success, Sys(s.reg.(boot := boot, hasDevice := fx.device), World(s.w.st.(nvngxDx12Inited := true), s.w.cfg)))
  }

  /** `ScopedInit` around a nested `Init_Ext`: `_skipInit` is set for its duration and restored after. */
  function ScopedInitExtSpec(s: Sys, appId: nat, fx: Env): (r: Outcome)
    ensures r.s.reg.boot.skipInit == s.reg.boot.skipInit
  {
    var inner := InitExtSpec(s.(reg := s.reg.(boot := s.reg.boot.(skipInit := true))), appId, fx);
    var reg := inner.s.reg;
    Outcome(inner.res, inner.s.(reg := reg.(boot := reg.boot.(skipInit := s.reg.boot.skipInit))))
  }

  /** `NVSDK_NGX_D3D12_Init`. */
  function InitSpec(s: Sys, appId: nat, fx: Env): (r: Outcome)
    ensures r.res == Success && r.s.w.st.nvngxDx12Inited
  {
    var s1 := s.(reg := s.reg.(boot := NativeInit(s.reg.boot, s.w.cfg, fx)));
    if s.w.st.nvngxDx12Inited then Outcome(Success, s1)
    else ScopedInitExtSpec(s1, appId, fx)
  }

  /** The application id `Init_ProjectID` passes on to `Init_Ext`. */
  const ProjectAppId: nat := 0x1337

  /** `NVSDK_NGX_D3D12_Init_ProjectID`: records the project id, then initialises through `Init_Ext`. */
  function InitProjectIdSpec(s: Sys, projectId: string, fx: Env): (r: Outcome)
    ensures r.res == Success && r.s.w.st.nvngxDx12Inited && r.s.reg.boot.projectId == projectId
  {
    var s1 := s.(reg := s.reg.(boot := NativeInit(s.reg.boot, s.w.cfg, fx).(projectId := projectId)));
    if s.w.st.nvngxDx12Inited then Outcome(Success, s1)
    else ScopedInitExtSpec(s1, ProjectAppId, fx)
  }

  // ---------------------------------------------------------------------------
  // The registry
  // ---------------------------------------------------------------------------

  class Registry {
    var contexts: map<nat, ContextData>
    var evalCounter: int
    var hasDevice: bool
    var contextRendering: bool
    var skipInit: bool
    var nextHandleId: nat
    var proxyInited: bool
    var nativeInitCalls: nat
    var appId: nat
    var projectId: string
    const ids: IdRanges
    const st: State
    const cfg: Config

    function View(): RegView
      reads this
    {
      RegView(contexts, evalCounter, hasDevice, contextRendering, nextHandleId,
        BootView(skipInit, proxyInited, nativeInitCalls, appId, projectId))
    }

    function Snap(): Sys
      reads this, st, cfg
    {
      Sys(View(), WorldOf(st, cfg))
    }

    predicate Valid()
      reads this, st, cfg
    {
      Inv(Snap(), ids)
    }

    /** An empty registry whose handle ids start at the native range's end. */
    constructor (ids: IdRanges, st: State, cfg: Config)
      ensures this.ids == ids && this.st == st && this.cfg == cfg
      ensures View() == RegView(map[], 0, false, false, ids.modOffset, BootView(false, false, 0, 0, ""))
      ensures Valid()
    {
      this.ids := ids;
      this.st := st;
      this.cfg := cfg;
      contexts := map[];
      evalCounter := 0;
      hasDevice := false;
      contextRendering := false;
      skipInit := false;
      nextHandleId := ids.modOffset;
      proxyInited := false;
      nativeInitCalls := 0;
      appId := 0;
      projectId := "";
    }

    /** The registration step of `TryCreateOptiFeature`. */
    method Register(name: string, params: ParamTable, ad: Adapters) returns (h: nat, feature: Feature)
      modifies this, st, cfg
      ensures Registered(h, Snap(), feature) == RegisterSpec(old(Snap()), name, params, ad)
    {
      ghost var c0 := contexts;
      h := nextHandleId;
      nextHandleId := nextHandleId + 1;
      contexts := contexts[h := EmptyContext];
      var built;
      built, feature := Dx12.GetFeature(st, cfg, name, h, params, ad);
      contexts := contexts[h := contexts[h].(feature := Some(feature))];
      assert contexts == c0[h := ContextData(Some(feature), 0, None)];
    }

    /** The second half of `TryCreateOptiFeature`. */
    method FinishCreate(h: nat, feature: Feature, restore: bool, fx: Env) returns (res: NgxResult)
      modifies this, st
      ensures var r := FinishCreateSpec(old(Snap()), h, feature, restore, fx);
        res == r.res && View() == r.s.reg && st.View() == r.s.w.st && cfg.View() == r.s.w.cfg
    {
      if !hasDevice && !fx.deviceFromCmdList {
        contexts := contexts - {h};
        res := Fail;
      } else {
        InitEntry(h, feature, fx);
        res := Success;
      }
      if restore {
        contextRendering := false;
      }
    }

    /** The device-present branch of `TryCreateOptiFeature`. */
    method InitEntry(h: nat, feature: Feature, fx: Env)
      modifies this, st
      ensures Snap() == InitEntrySpec(old(Snap()), h, feature, fx)
    {
      hasDevice := true;
      var f := feature.(inited := fx.initOk);
      contexts := contexts[h := ContextData(Some(f), 0, None)];
      if fx.initOk {
        st.currentFeature := Some(f.id);
        evalCounter := 0;
      } else {
        st.newBackend := FSR21;
        st.SetChangeBackend(h, true);
      }
    }

    /** The feature name `TryCreateOptiFeature` asks the provider for. */
    method RequestName(kind: FeatureKind) returns (name: string)
      ensures name == RequestedName(Snap(), kind)
    {
      name := DLSSD;
      if kind == SuperSampling {
        name := GetUpscalerBackend(cfg.dlssEnabled, proxyInited, cfg.dx12Upscaler);
      }
    }

    /** `TryCreateOptiFeature`. */
    method TryCreateOptiFeature(kind: FeatureKind, params: ParamTable, fx: Env, ad: Adapters)
      returns (res: NgxResult, handle: nat)
      modifies this, st, cfg
      ensures Created(res, Snap(), Some(handle)) == TryCreateSpec(old(Snap()), kind, params, fx, ad)
    {
      ghost var e, rs := TryCreateSteps(Snap(), kind, params, fx, ad);
      var name := RequestName(kind);
      var restore := cfg.restoreComputeSignature || cfg.restoreGraphicSignature;
      if restore {
        contextRendering := true;
      }
      assert Snap() == old(Snap()).(reg := old(View()).(contextRendering := restore || old(contextRendering)));
      var feature;
      handle, feature := Register(name, params, ad);
      assert Snap() == e.s && handle == e.h && feature == e.feature;
      res := FinishCreate(handle, feature, restore, fx);
    }

    /** `NVSDK_NGX_D3D12_CreateFeature`. */
    method CreateFeature(cmdList: bool, kind: FeatureKind, outHandle: bool, params: ParamTable, fx: Env, ad: Adapters)
      returns (res: NgxResult, handle: Option<nat>)
      requires Valid()
      modifies this, st, cfg
      ensures Created(res, Snap(), handle) == CreateFeatureSpec(old(Snap()), cmdList, kind, outHandle, params, fx, ad)
      ensures Valid()
    {
      if !cmdList || !outHandle {
        return Fail, None;
      }
      if fx.nukems && fx.dlssgAvailable && kind == FrameGeneration {
        return fx.nativeResult, None;
      }
      if kind != SuperSampling && kind != RayReconstruction {
        if cfg.dlssEnabled && fx.nativeReady {
          return fx.nativeResult, None;
        }
        return FailFeatureNotSupported, None;
      }
      var h;
      res, h := TryCreateOptiFeature(kind, params, fx, ad);
      handle := Some(h);
      CreatePreservesInv(old(Snap()), ids, cmdList, kind, outHandle, params, fx, ad);
    }

    /** `NVSDK_NGX_D3D12_ReleaseFeature`. */
    method ReleaseFeature(handle: Option<nat>, fx: Env) returns (res: NgxResult)
      requires Valid()
      modifies this, st
      ensures Outcome(res, Snap()) == ReleaseFeatureSpec(old(Snap()), ids, handle, fx)
      ensures Valid()
    {
      if handle.None? {
        return Success;
      }
      var id := handle.value;
      if id < ids.modOffset {
        if cfg.dlssEnabled && fx.nativeReady {
          return fx.nativeResult;
        }
        return FailFeatureNotFound;
      } else if fx.nukems && id >= ids.dlssgOffset {
        return fx.nativeResult;
      }
      if id in contexts && contexts[id].feature.Some? {
        var f := contexts[id].feature.value;
        if st.currentFeature == Some(f.id) {
          st.currentFeature := None;
        }
        contexts := contexts - {id};
      }
      res := Success;
      ReleasePreservesInv(old(Snap()), ids, handle, fx);
    }

    /** The switch branch of `TryEvaluateOptiFeature`. */
    method SwitchEntry(h: nat, params: ParamTable, fx: Env, ad: Adapters) returns (res: NgxResult, host: ParamTable)
      requires h in contexts && PhaseReady(contexts[h])
      modifies this, st, cfg
      ensures Evaluated(res, Snap(), host) == SwitchEntrySpec(old(Snap()), h, params, fx, ad)
    {
      contextRendering := false;
      var changed, ctx';
      changed, ctx', host := Dx12.ChangeFeature(st, cfg, h, params, contexts[h], ad, fx.initOk);
      contexts := contexts[h := ctx'];
      evalCounter := 0;
      res := Success;
    }

    /** The run branch of `TryEvaluateOptiFeature`. */
    method RunEntry(h: nat, f: Feature, params: ParamTable, fx: Env) returns (res: NgxResult, host: ParamTable)
      modifies this, st
      ensures Evaluated(res, Snap(), host) == RunEntrySpec(old(Snap()), h, f, params, fx)
    {
      host := params;
      if !f.inited && cfg.dx12Upscaler.ValueOrDefault() != FSR21 {
        st.newBackend := FSR21;
        st.SetChangeBackend(h, true);
        return Success, host;
      }
      res, host := Run(h, f, params, fx);
    }

    /** The instance runs. */
    method Run(h: nat, f: Feature, params: ParamTable, fx: Env) returns (res: NgxResult, host: ParamTable)
      modifies this, st
      ensures Evaluated(res, Snap(), host) == RunSpec(old(Snap()), h, f, params, fx)
    {
      host := params;
      st.currentFeature := Some(f.id);
      var restore := f.name != "DLSSD" && (cfg.restoreComputeSignature || cfg.restoreGraphicSignature);
      if restore {
        contextRendering := true;
      }
      if fx.evalArms {
        st.SetChangeBackend(h, true);
      }
      if restore {
        contextRendering := false;
      }
      res := if fx.evalOk then Success else Fail;
    }

    /** `TryEvaluateOptiFeature`. */
    method TryEvaluateOptiFeature(h: nat, params: ParamTable, fx: Env, ad: Adapters)
      returns (res: NgxResult, host: ParamTable)
      requires Consistent(Snap(), h)
      modifies this, st, cfg
      ensures Evaluated(res, Snap(), host) == TryEvaluateSpec(old(Snap()), h, params, fx, ad)
    {
      host := params;
      if h !in contexts {
        return FailFeatureNotFound, host;
      }
      var ctx := contexts[h];
      evalCounter := evalCounter + 1;
      if cfg.skipFirstFrames.Some? && evalCounter < cfg.skipFirstFrames.value {
        return Success, host;
      }
      if ctx.feature.Some? && !IsFsr31OrLater(ctx.feature.value) && fx.outputChanged {
        st.SetChangeBackend(h, true);
      }
      if h in st.changeBackend && st.changeBackend[h] {
        res, host := SwitchEntry(h, params, fx, ad);
        return;
      }
      // not armed, so not mid-switch: the entry holds an instance
      res, host := RunEntry(h, ctx.feature.value, params, fx);
    }

    /** `NVSDK_NGX_D3D12_EvaluateFeature`. */
    method EvaluateFeature(handle: Option<nat>, cmdList: bool, params: ParamTable, fx: Env, ad: Adapters)
      returns (res: NgxResult, host: ParamTable)
      requires Valid()
      modifies this, st, cfg
      ensures Evaluated(res, Snap(), host) == EvaluateFeatureSpec(old(Snap()), ids, handle, cmdList, params, fx, ad)
      ensures Valid()
    {
      host := params;
      if handle.None? {
        return FailFeatureNotFound, host;
      }
      if !cmdList {
        return Fail, host;
      }
      var id := handle.value;
      if id < ids.modOffset {
        if cfg.dlssEnabled && fx.nativeReady {
          return fx.nativeResult, host;
        }
        return FailFeatureNotFound, host;
      }
      if fx.nukems && id >= ids.dlssgOffset {
        return fx.nativeResult, host;
      }
      res, host := TryEvaluateOptiFeature(id, params, fx, ad);
      EvaluatePreservesInv(old(Snap()), ids, handle, cmdList, params, fx, ad);
    }

    /** The native-init block the init calls open with. */
    method CallNativeInit(fx: Env)
      modifies this
      ensures View() == old(View()).(boot := NativeInit(old(View()).boot, cfg.View(), fx))
    {
      if cfg.dlssEnabled && !skipInit && fx.nativeReady {
        nativeInitCalls := nativeInitCalls + 1;
        proxyInited := proxyInited || fx.nativeInitOk;
      }
    }

    /** `NVSDK_NGX_D3D12_Init_Ext`. */
    method InitExt(id: nat, fx: Env) returns (res: NgxResult)
      modifies this, st
      ensures Outcome(res, Snap()) == InitExtSpec(old(Snap()), id, fx)
    {
      appId := id;
      CallNativeInit(fx);
      if st.nvngxDx12Inited {
        return Success;
      }
      hasDevice := fx.device;
      st.nvngxDx12Inited := true;
      res := Success;
    }

    /** `ScopedInit scopedInit {}` followed by `Init_Ext`; the destructor restores `_skipInit`. */
    method ScopedInitExt(id: nat, fx: Env) returns (res: NgxResult)
      modifies this, st
      ensures Outcome(res, Snap()) == ScopedInitExtSpec(old(Snap()), id, fx)
    {
      var previous := skipInit;
      skipInit := true;
      res := InitExt(id, fx);
      skipInit := previous;
    }

    /** `NVSDK_NGX_D3D12_Init`. */
    method Init(id: nat, fx: Env) returns (res: NgxResult)
      modifies this, st
      ensures Outcome(res, Snap()) == InitSpec(old(Snap()), id, fx)
    {
      CallNativeInit(fx);
      if st.nvngxDx12Inited {
        return Success;
      }
      res := ScopedInitExt(id, fx);
    }

    /** `NVSDK_NGX_D3D12_Init_ProjectID`. */
    method InitProjectId(project: string, fx: Env) returns (res: NgxResult)
      modifies this, st
      ensures Outcome(res, Snap()) == InitProjectIdSpec(old(Snap()), project, fx)
    {
      CallNativeInit(fx);
      projectId := project;
      if st.nvngxDx12Inited {
        return Success;
      }
      res := ScopedInitExt(ProjectAppId, fx);
    }
  }

  // ---------------------------------------------------------------------------
  // Properties of the registry
  // ---------------------------------------------------------------------------

  /** A create call hands out a fresh handle and keeps every entry consistent. */
  lemma CreatePreservesInv(s: Sys, ids: IdRanges, cmdList: bool, kind: FeatureKind, outHandle: bool,
                           params: ParamTable, fx: Env, ad: Adapters)
    requires Inv(s, ids)
    ensures var r := CreateFeatureSpec(s, cmdList, kind, outHandle, params, fx, ad);
      && Inv(r.s, ids)
      && (r.handle.Some? ==> r.handle.value !in s.reg.contexts)
  {
    if cmdList && outHandle && !(fx.nukems && fx.dlssgAvailable && kind == FrameGeneration)
       && (kind == SuperSampling || kind == RayReconstruction) {
      TryCreatePreservesInv(s, ids, kind, params, fx, ad);
    }
  }

  /** The handle a create call registers is fresh, and every entry stays consistent. */
  lemma TryCreatePreservesInv(s: Sys, ids: IdRanges, kind: FeatureKind, params: ParamTable, fx: Env, ad: Adapters)
    requires Inv(s, ids)
    ensures var r := TryCreateSpec(s, kind, params, fx, ad);
      && Inv(r.s, ids)
      && r.handle == Some(s.reg.nextHandleId) && s.reg.nextHandleId !in s.reg.contexts
  {
    var h := s.reg.nextHandleId;
    var restore := RestoresSignatures(s.w.cfg);
    var s1 := s.(reg := s.reg.(contextRendering := restore || s.reg.contextRendering));
    var e := RegisterSpec(s1, RequestedName(s, kind), params, ad);
    var r := FinishCreateSpec(e.s, e.h, e.feature, restore, fx).s;
    forall k | k in r.reg.contexts
      ensures ids.modOffset <= k < r.reg.nextHandleId && Consistent(r, k)
    {
      if k != h {
        assert Consistent(s, k);
      }
    }
  }

  /** A release call keeps every remaining entry consistent. */
  lemma ReleasePreservesInv(s: Sys, ids: IdRanges, handle: Option<nat>, fx: Env)
    requires Inv(s, ids)
    ensures Inv(ReleaseFeatureSpec(s, ids, handle, fx).s, ids)
  {
  }

  /** The switch branch keeps every entry consistent: the switched one by the provider's shape lemma, the others by locality. */
  lemma SwitchEntryPreservesInv(s: Sys, ids: IdRanges, h: nat, params: ParamTable, fx: Env, ad: Adapters)
    requires Inv(s, ids) && h in s.reg.contexts && Armed(s.w.st, h)
    ensures PhaseReady(s.reg.contexts[h])
    ensures Inv(SwitchEntrySpec(s, h, params, fx, ad).s, ids)
  {
    var ctx := s.reg.contexts[h];
    assert Consistent(s, h);
    Dx12.ChangeFeatureKeepsShape(s.w, h, params, ctx, ad, fx.initOk);
    Dx12.ChangeFeatureIsLocal(s.w, h, params, ctx, ad, fx.initOk);
    var r := SwitchEntrySpec(s, h, params, fx, ad).s;
    forall k | k in r.reg.contexts
      ensures Consistent(r, k)
    {
      if k != h {
        assert Consistent(s, k);
      }
    }
  }

  /** The run branch only arms flags, which keeps every entry consistent. */
  lemma RunEntryPreservesInv(s: Sys, ids: IdRanges, h: nat, f: Feature, params: ParamTable, fx: Env)
    requires Inv(s, ids) && h in s.reg.contexts && s.reg.contexts[h].counter == 0
    ensures Inv(RunEntrySpec(s, h, f, params, fx).s, ids)
  {
    var r := RunEntrySpec(s, h, f, params, fx).s;
    forall k | k in r.reg.contexts
      ensures Consistent(r, k)
    {
      assert Consistent(s, k);
    }
  }

  /** The evaluation counter has no part in the invariant. */
  lemma CounterPreservesInv(s: Sys, ids: IdRanges, n: int)
    requires Inv(s, ids)
    ensures Inv(s.(reg := s.reg.(evalCounter := n)), ids)
  {
    var s1 := s.(reg := s.reg.(evalCounter := n));
    forall k | k in s1.reg.contexts
      ensures Consistent(s1, k)
    {
      assert Consistent(s, k);
    }
  }

  /** Arming a handle keeps every entry consistent: an armed entry may be at any phase. */
  lemma ArmPreservesInv(s: Sys, ids: IdRanges, h: nat)
    requires Inv(s, ids)
    ensures Inv(s.(w := s.w.(st := SetArmed(s.w.st, h, true))), ids)
  {
    var s1 := s.(w := s.w.(st := SetArmed(s.w.st, h, true)));
    forall k | k in s1.reg.contexts
      ensures Consistent(s1, k)
    {
      assert Consistent(s, k);
    }
  }

  /**
   * An evaluate call on a handle of the registry keeps every entry
   * consistent, the one it switches included.
   */
  lemma {:induction false} TryEvaluatePreservesInv(s: Sys, ids: IdRanges, h: nat, params: ParamTable, fx: Env, ad: Adapters)
    requires Inv(s, ids)
    ensures Consistent(s, h)
    ensures Inv(TryEvaluateSpec(s, h, params, fx, ad).s, ids)
  {
    assert Consistent(s, h);
    if h in s.reg.contexts {
      var s1 := s.(reg := s.reg.(evalCounter := s.reg.evalCounter + 1));
      CounterPreservesInv(s, ids, s.reg.evalCounter + 1);
      if s.w.cfg.skipFirstFrames.Some? && s1.reg.evalCounter < s.w.cfg.skipFirstFrames.value {
        assert TryEvaluateSpec(s, h, params, fx, ad).s == s1;
      } else {
        assert TryEvaluateSpec(s, h, params, fx, ad) == DispatchSpec(s1, h, params, fx, ad);
        DispatchPreservesInv(s1, ids, h, params, fx, ad);
      }
    }
  }

  lemma {:induction false} DispatchPreservesInv(s: Sys, ids: IdRanges, h: nat, params: ParamTable, fx: Env, ad: Adapters)
    requires Inv(s, ids) && h in s.reg.contexts
    ensures Consistent(s, h)
    ensures Inv(DispatchSpec(s, h, params, fx, ad).s, ids)
  {
    var ctx := s.reg.contexts[h];
    var armNow := ctx.feature.Some? && !IsFsr31OrLater(ctx.feature.value) && fx.outputChanged;
    var st1 := if armNow then SetArmed(s.w.st, h, true) else s.w.st;
    if armNow {
      ArmPreservesInv(s, ids, h);
    }
    if Armed(st1, h) {
      SwitchEntryPreservesInv(Sys(s.reg, World(st1, s.w.cfg)), ids, h, params, fx, ad);
    } else {
      assert Consistent(s, h);
      RunEntryPreservesInv(s, ids, h, ctx.feature.value, params, fx);
    }
  }

  /** An evaluate call keeps every entry consistent, the one it switches included. */
  lemma EvaluatePreservesInv(s: Sys, ids: IdRanges, handle: Option<nat>, cmdList: bool,
                             params: ParamTable, fx: Env, ad: Adapters)
    requires Inv(s, ids)
    ensures handle.Some? ==> Consistent(s, handle.value)
    ensures Inv(EvaluateFeatureSpec(s, ids, handle, cmdList, params, fx, ad).s, ids)
  {
    if handle.Some? {
      TryEvaluatePreservesInv(s, ids, handle.value, params, fx, ad);
    }
  }

  /**
   * A create call that finds no device anywhere fails after spending a
   * handle id: the id is written out, but no entry stays registered and
   * every other entry is as it was.
   */
  lemma CreateWithoutDeviceFails(s: Sys, ids: IdRanges, kind: FeatureKind, params: ParamTable, fx: Env, ad: Adapters)
    requires Inv(s, ids) && !s.reg.hasDevice && !fx.deviceFromCmdList
    ensures var r := TryCreateSpec(s, kind, params, fx, ad);
      && r.res == Fail && r.handle == Some(s.reg.nextHandleId)
      && r.s.reg.contexts == s.reg.contexts
      && r.s.reg.nextHandleId == s.reg.nextHandleId + 1
  {
    var restore := RestoresSignatures(s.w.cfg);
    var s1 := s.(reg := s.reg.(contextRendering := restore || s.reg.contextRendering));
    var e := RegisterSpec(s1, RequestedName(s, kind), params, ad);
    var r := FinishCreateSpec(e.s, e.h, e.feature, restore, fx);
    assert TryCreateSpec(s, kind, params, fx, ad) == r;
    assert e.h !in s.reg.contexts;
    assert r.res == Fail && e.h !in r.s.reg.contexts;
    forall k | k != e.h
      ensures (k in r.s.reg.contexts <==> k in s.reg.contexts)
      ensures k in s.reg.contexts ==> r.s.reg.contexts[k] == s.reg.contexts[k]
    {
    }
    assert r.s.reg.contexts == s.reg.contexts;
  }

  /**
   * Releasing a handle of this layer drops exactly its entry and makes the
   * current feature unset exactly when it was that entry's instance;
   * handles of the native runtime never touch the registry.
   */
  lemma ReleaseDropsOnlyItsEntry(s: Sys, ids: IdRanges, id: nat, fx: Env)
    requires ids.modOffset <= id && !(fx.nukems && id >= ids.dlssgOffset)
    requires id in s.reg.contexts && s.reg.contexts[id].feature.Some?
    ensures var r := ReleaseFeatureSpec(s, ids, Some(id), fx);
      && r.res == Success
      && r.s.reg.contexts == s.reg.contexts - {id}
      && (r.s.w.st.currentFeature.None? <==>
            s.w.st.currentFeature.None? || s.w.st.currentFeature == Some(s.reg.contexts[id].feature.value.id))
  {
  }

  lemma NativeHandleLeavesRegistry(s: Sys, ids: IdRanges, id: nat, fx: Env)
    requires id < ids.modOffset
    ensures var r := ReleaseFeatureSpec(s, ids, Some(id), fx);
      && r.s == s
      && (r.res == Success ==> s.w.cfg.dlssEnabled && fx.nativeReady)
  {
  }

  /**
   * However the init entry points nest, one outer call forwards to the
   * native runtime at most once: the `Init_Ext` it makes runs inside
   * `ScopedInit`, which keeps the native block from running again.
   */
  lemma {:induction false} InitCallsNativeOnce(s: Sys, appId: nat, projectId: string, fx: Env)
    ensures InitSpec(s, appId, fx).s.reg.boot.nativeInitCalls <= s.reg.boot.nativeInitCalls + 1
    ensures InitProjectIdSpec(s, projectId, fx).s.reg.boot.nativeInitCalls <= s.reg.boot.nativeInitCalls + 1
    ensures s.reg.boot.skipInit ==> InitSpec(s, appId, fx).s.reg.boot.nativeInitCalls == s.reg.boot.nativeInitCalls
  {
    var b1 := NativeInit(s.reg.boot, s.w.cfg, fx);
    var s1 := s.(reg := s.reg.(boot := b1));
    ScopedInitCallsNoNative(s1, appId, fx);
    var b2 := NativeInit(s.reg.boot, s.w.cfg, fx).(projectId := projectId);
    var s2 := s.(reg := s.reg.(boot := b2));
    ScopedInitCallsNoNative(s2, ProjectAppId, fx);
  }

  lemma ScopedInitCallsNoNative(s: Sys, appId: nat, fx: Env)
    ensures ScopedInitExtSpec(s, appId, fx).s.reg.boot.nativeInitCalls == s.reg.boot.nativeInitCalls
  {
    var inner := s.(reg := s.reg.(boot := s.reg.boot.(skipInit := true)));
    assert NativeInit(inner.reg.boot.(appId := appId), inner.w.cfg, fx) == inner.reg.boot.(appId := appId);
  }

  /** `Init_ProjectID` initialises under the fixed application id 0x1337. */
  lemma InitProjectIdUsesFixedAppId(s: Sys, projectId: string, fx: Env)
    requires !s.w.st.nvngxDx12Inited
    ensures InitProjectIdSpec(s, projectId, fx).s.reg.boot.appId == ProjectAppId
  {
  }
}
