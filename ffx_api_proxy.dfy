/**
 * FfxApiProxy (OptiScaler/proxies/FfxApi_Proxy.h): the router between the
 * game's FidelityFX API calls and up to three FidelityFX modules, the
 * "main" one (the loader or the monolithic runtime), the upscaling one and
 * the frame-generation one.
 *
 * A structure type is classified by its effect bits; calls go to the module
 * of their kind when it is loaded and otherwise to the main module, with a
 * per-kind skip flag raised for the duration of that call so that a call of
 * the same kind re-entering the proxy (the main module's functions are
 * hooked back into it) is refused instead of looping. Contexts remember the
 * kind they were created with, and destruction tries the modules in a fixed
 * order. Loading the DLLs and resolving their exports are reduced to the
 * outcomes they produce.
 */
module FfxApiProxy {
  import opened Wrappers
  import opened SysUtils
  import Fsr31Feature

  // ---------------------------------------------------------------------------
  // Structure types
  // ---------------------------------------------------------------------------

  /** `ffxStructType_t`, a 64-bit unsigned integer. */
  type StructType = bv64

  /** The effect part of a structure type (`FFX_API_EFFECT_MASK`) and the effect ids. */
  const EffectMask: bv64 := 0xffff_0000
  const EffectGeneral: bv64 := 0x0000_0000
  const EffectUpscale: bv64 := 0x0001_0000
  const EffectFrameGeneration: bv64 := 0x0002_0000
  const EffectFrameGenerationSwapchain: bv64 := 0x0003_0000
  const EffectFrameGenerationSwapchainVk: bv64 := 0x0004_0000
  const EffectDenoiser: bv64 := 0x0005_0000
  const EffectRadianceCache: bv64 := 0x0006_0000

  /** The two general queries whose effect is named by the header that follows them. */
  const QueryGetVersions: bv64 := 0x0000_0004
  const QueryGetProviderVersion: bv64 := 0x0000_0008

  /** `FFXStructType`. */
  datatype StructKind =
    General | Upscaling | FrameGeneration | SwapchainDx12 | SwapchainVulkan
    | Denoiser | RadianceCache | Unknown

  /** The effect id each known kind is recognised by. */
  function EffectOf(k: StructKind): (e: Option<bv64>)
    ensures e.None? <==> k == Unknown
    ensures e.Some? ==> e.value & EffectMask == e.value
  {
    match k
    case General => Some(EffectGeneral)
    case Upscaling => Some(EffectUpscale)
    case FrameGeneration => Some(EffectFrameGeneration)
    case SwapchainDx12 => Some(EffectFrameGenerationSwapchain)
    case SwapchainVulkan => Some(EffectFrameGenerationSwapchainVk)
    case Denoiser => Some(EffectDenoiser)
    case RadianceCache => Some(EffectRadianceCache)
    case Unknown => None
  }

  /** `GetType`: the kind named by the effect bits of `t`. */
  function GetType(t: StructType): (k: StructKind)
    ensures k != Unknown ==> EffectOf(k) == Some(t & EffectMask)
  {
    var effect := t & EffectMask;
    if effect == EffectGeneral then General
    else if effect == EffectUpscale then Upscaling
    else if effect == EffectFrameGeneration then FrameGeneration
    else if effect == EffectFrameGenerationSwapchain then SwapchainDx12
    else if effect == EffectFrameGenerationSwapchainVk then SwapchainVulkan
    else if effect == EffectDenoiser then Denoiser
    else if effect == EffectRadianceCache then RadianceCache
    else Unknown
  }

  /**
   * Any structure type of a known effect, whatever bits it carries outside
   * the effect mask, is classified as that effect's kind; a type is
   * `Unknown` exactly when its effect bits are no listed effect id.
   */
  lemma GetTypeRoundTrip(k: StructKind, low: bv64)
    requires k != Unknown && low & EffectMask == 0
    ensures GetType(EffectOf(k).value | low) == k
  {
    match k
    case General => assert (EffectGeneral | low) & EffectMask == EffectGeneral;
    case Upscaling => assert (EffectUpscale | low) & EffectMask == EffectUpscale;
    case FrameGeneration => assert (EffectFrameGeneration | low) & EffectMask == EffectFrameGeneration;
    case SwapchainDx12 =>
      assert (EffectFrameGenerationSwapchain | low) & EffectMask == EffectFrameGenerationSwapchain;
    case SwapchainVulkan =>
      assert (EffectFrameGenerationSwapchainVk | low) & EffectMask == EffectFrameGenerationSwapchainVk;
    case Denoiser => assert (EffectDenoiser | low) & EffectMask == EffectDenoiser;
    case RadianceCache => assert (EffectRadianceCache | low) & EffectMask == EffectRadianceCache;
  }

  lemma GetTypeUnknown(t: StructType)
    ensures GetType(t) == Unknown <==> forall k :: EffectOf(k) != Some(t & EffectMask)
  {
    if GetType(t) != Unknown {
      assert EffectOf(GetType(t)) == Some(t & EffectMask);
    }
  }

  /** The two query types that carry the effect in the next header. */
  predicate IsVersionQuery(t: StructType) {
    t == QueryGetVersions || t == QueryGetProviderVersion
  }

  /**
   * `GetIndirectType`: `headers` are the query header and the ones laid out
   * after it; a versions query needs the one that follows.
   */
  function GetIndirectType(headers: seq<StructType>): (k: StructKind)
    requires |headers| >= 1
    requires IsVersionQuery(headers[0]) ==> |headers| >= 2
    ensures IsVersionQuery(headers[0]) ==> k == GetType(headers[1])
    ensures !IsVersionQuery(headers[0]) ==> k == GetType(headers[0])
  {
    var t := if IsVersionQuery(headers[0]) then headers[1] else headers[0];
    GetType(t)
  }

  /**
   * A versions query is itself a general structure, so classifying it by its
   * own type would route a frame-generation versions query to the
   * upscaling side; the indirection routes it by the header that follows.
   */
  lemma VersionQueryRoutedByNextHeader(low: bv64)
    requires low & EffectMask == 0
    ensures GetType(QueryGetVersions) == General
    ensures GetIndirectType([QueryGetVersions, EffectFrameGeneration | low]) == FrameGeneration
  {
    assert (EffectFrameGeneration | low) & EffectMask == EffectFrameGeneration;
  }

  /** The kinds the frame-generation module serves. */
  predicate IsFgKind(k: StructKind) {
    k == FrameGeneration || k == SwapchainDx12
  }

  // ---------------------------------------------------------------------------
  // Return codes
  // ---------------------------------------------------------------------------

  /** `ffxReturnCode_t`. */
  type ReturnCode = nat

  const RetOk: ReturnCode := 0
  const RetError: ReturnCode := 1
  const RetErrorUnknownDesctype: ReturnCode := 2
  const RetErrorRuntimeError: ReturnCode := 3
  const RetNoProvider: ReturnCode := 4
  const RetErrorMemory: ReturnCode := 5
  const RetErrorParameter: ReturnCode := 6

  /** `ReturnCodeToString`: a text for every code, "Unknown" for the unlisted ones. */
  function ReturnCodeToString(code: ReturnCode): (r: string)
    ensures code > RetErrorParameter ==> r == "Unknown"
  {
    if code == RetOk then "The operation was successful."
    else if code == RetError then "An error occurred that is not further specified."
    else if code == RetErrorUnknownDesctype then
      "The structure type given was not recognized for the function or context with which it was used. This is likely a programming error."
    else if code == RetErrorRuntimeError then
      "The underlying runtime (e.g. D3D12, Vulkan) or effect returned an error code."
    else if code == RetNoProvider then
      "No provider was found for the given structure type. This is likely a programming error."
    else if code == RetErrorMemory then "A memory allocation failed."
    else if code == RetErrorParameter then
      "A parameter was invalid, e.g. a null pointer, empty resource or out-of-bounds enum value."
    else "Unknown"
  }

  // ---------------------------------------------------------------------------
  // Modules
  // ---------------------------------------------------------------------------

  /** Which of the five entry points a module exports (the non-null function pointers). */
  datatype Exports = Exports(create: bool, destroy: bool, configure: bool, query: bool, dispatch: bool)

  const NoExports := Exports(false, false, false, false, false)

  /** The four calls routed by kind, each with its own skip flag. */
  datatype CallKind = CreateCall | ConfigureCall | QueryCall | DispatchCall

  datatype SkipFlags = SkipFlags(create: bool, configure: bool, query: bool, dispatch: bool)

  const NoSkips := SkipFlags(false, false, false, false)

  /** `FfxModule`: the DLL handle (here: whether one is held), its cached version, its guards and its exports. */
  datatype Module = Module(dll: bool, version: FeatureVersion, skip: SkipFlags, fns: Exports)

  const EmptyModule := Module(false, FeatureVersion(0, 0, 0), NoSkips, NoExports)

  function Skipping(m: Module, c: CallKind): bool {
    match c
    case CreateCall => m.skip.create
    case ConfigureCall => m.skip.configure
    case QueryCall => m.skip.query
    case DispatchCall => m.skip.dispatch
  }

  function SetSkip(m: Module, c: CallKind, v: bool): (r: Module)
    ensures Skipping(r, c) == v
    ensures forall c' :: c' != c ==> Skipping(r, c') == Skipping(m, c')
    ensures r.dll == m.dll && r.version == m.version && r.fns == m.fns
  {
    match c
    case CreateCall => m.(skip := m.skip.(create := v))
    case ConfigureCall => m.(skip := m.skip.(configure := v))
    case QueryCall => m.(skip := m.skip.(query := v))
    case DispatchCall => m.(skip := m.skip.(dispatch := v))
  }

  datatype ModuleId = MainModule | UpscalingModule | FgModule

  /** The state of the proxy: the three DX12 modules, the context map and the destroy guard. */
  datatype ProxyView = ProxyView(
    main: Module, upscaling: Module, fg: Module,
    contextToType: map<nat, StructKind>, skipDestroyCalls: bool)

  function ModuleOf(px: ProxyView, id: ModuleId): Module {
    match id
    case MainModule => px.main
    case UpscalingModule => px.upscaling
    case FgModule => px.fg
  }

  /** Between calls no guard is raised. */
  predicate AtRest(px: ProxyView) {
    && px.main.skip == NoSkips && px.upscaling.skip == NoSkips && px.fg.skip == NoSkips
    && !px.skipDestroyCalls
  }

  // ---------------------------------------------------------------------------
  // Routing of create, configure, query and dispatch
  // ---------------------------------------------------------------------------

  /** What each module's entry point answers to the call being routed. */
  datatype Replies = Replies(main: ReturnCode, upscaling: ReturnCode, fg: ReturnCode)

  function ReplyOf(rep: Replies, id: ModuleId): ReturnCode {
    match id
    case MainModule => rep.main
    case UpscalingModule => rep.upscaling
    case FgModule => rep.fg
  }

  /** The result of a routed call: the code, the module that served it, the new state. */
  datatype Routed = Routed(code: ReturnCode, server: Option<ModuleId>, px: ProxyView)

  /** The module whose skip flag guards calls of this kind. */
  function GuardModule(px: ProxyView, kind: StructKind): Module {
    if IsFgKind(kind) then px.fg else px.upscaling
  }

  /** The state while the main module serves a call: the kind's flag is raised. */
  function DuringMainCall(px: ProxyView, call: CallKind, kind: StructKind): ProxyView {
    if IsFgKind(kind) then px.(fg := SetSkip(px.fg, call, true))
    else px.(upscaling := SetSkip(px.upscaling, call, true))
  }

  /**
   * The shared shape of `D3D12_CreateContext` (after its mapping),
   * `D3D12_Configure`, `D3D12_Query` and `D3D12_Dispatch`: the kind's own
   * module when loaded, else the main module unless the kind's flag is
   * raised, else NO_PROVIDER. The flag is lowered again after the call.
   */
  function RouteSpec(px: ProxyView, call: CallKind, kind: StructKind, rep: Replies): (r: Routed)
    ensures r.px == px
    ensures r.server == Some(FgModule) <==> IsFgKind(kind) && px.fg.dll
    ensures r.server == Some(UpscalingModule) <==> !IsFgKind(kind) && px.upscaling.dll
    ensures r.server == Some(MainModule) <==>
      !GuardModule(px, kind).dll && px.main.dll && !Skipping(GuardModule(px, kind), call)
    ensures r.server.Some? ==> r.code == ReplyOf(rep, r.server.value) && ModuleOf(px, r.server.value).dll
    ensures r.server.None? ==> r.code == RetNoProvider
  {
    var isFg := IsFgKind(kind);
    if isFg && px.fg.dll then Routed(rep.fg, Some(FgModule), px)
    else if !isFg && px.upscaling.dll then Routed(rep.upscaling, Some(UpscalingModule), px)
    else if px.main.dll && !(isFg && Skipping(px.fg, call)) && !(!isFg && Skipping(px.upscaling, call)) then
      Routed(rep.main, Some(MainModule), px)
    else Routed(RetNoProvider, None, px)
  }

  /**
   * A call the main module serves raises its kind's flag, so the same kind
   * of call re-entering the proxy during it is refused with NO_PROVIDER and
   * reaches no module; once lowered, the flag is as it was.
   */
  lemma ReentrantCallRefused(px: ProxyView, call: CallKind, kind: StructKind, rep: Replies, rep2: Replies)
    requires RouteSpec(px, call, kind, rep).server == Some(MainModule)
    ensures var mid := DuringMainCall(px, call, kind);
      RouteSpec(mid, call, kind, rep2) == Routed(RetNoProvider, None, mid)
  {
  }

  /** A call of another kind, or of the other side, is not held back by the raised flag. */
  lemma OtherCallsNotRefused(px: ProxyView, call: CallKind, kind: StructKind, call2: CallKind, kind2: StructKind,
                             rep: Replies, rep2: Replies)
    requires AtRest(px)
    requires RouteSpec(px, call, kind, rep).server == Some(MainModule)
    requires call2 != call || IsFgKind(kind2) != IsFgKind(kind)
    ensures RouteSpec(DuringMainCall(px, call, kind), call2, kind2, rep2).server.Some?
  {
    var mid := DuringMainCall(px, call, kind);
    assert px.main.dll;
    if !GuardModule(mid, kind2).dll {
      assert !Skipping(GuardModule(mid, kind2), call2);
    }
  }

  /** `D3D12_CreateContext`: the context's kind is recorded before routing. */
  function CreateContextSpec(px: ProxyView, context: nat, descType: StructType, rep: Replies): (r: Routed)
    ensures r.px == px.(contextToType := px.contextToType[context := GetType(descType)])
  {
    var kind := GetType(descType);
    RouteSpec(px.(contextToType := px.contextToType[context := kind]), CreateCall, kind, rep)
  }


  // ---------------------------------------------------------------------------
  // Destruction
  // ---------------------------------------------------------------------------

  /** The kind recorded for a context, `Unknown` when it has no mapping. */
  function KindOf(px: ProxyView, context: nat): StructKind {
    if context in px.contextToType then px.contextToType[context] else Unknown
  }

  /** The module a context's kind is destroyed with first; other kinds have none. */
  function MappedModule(k: StructKind): (m: Option<ModuleId>)
    ensures m == Some(FgModule) <==> IsFgKind(k)
    ensures m == Some(MainModule) <==> k == General
    ensures m == Some(UpscalingModule) <==> k == Upscaling
  {
    match k
    case General => Some(MainModule)
    case Upscaling => Some(UpscalingModule)
    case FrameGeneration => Some(FgModule)
    case SwapchainDx12 => Some(FgModule)
    case _ => None
  }

  /** What each attempted `DestroyContext` answers: the mapped module's try, then the chain's. */
  datatype DestroyReplies = DestroyReplies(mapped: ReturnCode, upscaling: ReturnCode, fg: ReturnCode, main: ReturnCode)

  /** One call of a module's `DestroyContext` and its answer. */
  datatype Attempt = Attempt(target: ModuleId, reply: ReturnCode)

  datatype Destroyed = Destroyed(code: ReturnCode, attempts: seq<Attempt>, px: ProxyView)

  /** A step of the chain: the module is tried only while no earlier try succeeded. */
  function TryNext(prev: Destroyed, id: ModuleId, eligible: bool, reply: ReturnCode): (r: Destroyed)
    ensures r.px == prev.px
    ensures prev.code == RetOk || !eligible ==> r == prev
    ensures prev.code != RetOk && eligible ==> r.code == reply && r.attempts == prev.attempts + [Attempt(id, reply)]
  {
    if prev.code == RetOk || !eligible then prev
    else Destroyed(reply, prev.attempts + [Attempt(id, reply)], prev.px)
  }

  /** The tries of `D3D12_DestroyContext`: the mapped module, then upscaling, frame generation and main. */
  function DestroyChain(px: ProxyView, context: nat, rep: DestroyReplies): (r: Destroyed)
    ensures r.px == px.(contextToType := px.contextToType - {context})
  {
    var mapped := MappedModule(KindOf(px, context));
    var d0 := Destroyed(RetError, [], px.(contextToType := px.contextToType - {context}));
    var d1 := if mapped.Some? then TryNext(d0, mapped.value, ModuleOf(px, mapped.value).dll, rep.mapped) else d0;
    var d2 := TryNext(d1, UpscalingModule, px.upscaling.dll, rep.upscaling);
    var d3 := TryNext(d2, FgModule, px.fg.dll, rep.fg);
    TryNext(d3, MainModule, px.main.dll && !px.skipDestroyCalls, rep.main)
  }

  /**
   * `D3D12_DestroyContext`: drop the context's mapping and run the chain
   * (main guarded by `_skipDestroyCalls`); the first OK is returned,
   * NO_PROVIDER if none.
   */
  function DestroyContextSpec(px: ProxyView, context: nat, rep: DestroyReplies): (r: Destroyed)
    ensures r.px == px.(contextToType := px.contextToType - {context})
  {
    var d := DestroyChain(px, context, rep);
    if d.code == RetOk then d else d.(code := RetNoProvider)
  }

  /**
   * What holds of the chain after every step: the code is OK exactly when
   * the last try answered OK, every earlier try failed, every module tried
   * was loaded, and main was tried past a raised guard only as a General
   * context's own module, first.
   */
  ghost predicate ChainSound(d: Destroyed, px: ProxyView, context: nat) {
    && (d.code == RetOk <==> |d.attempts| > 0 && d.attempts[|d.attempts| - 1].reply == RetOk)
    && (forall i :: 0 <= i < |d.attempts| - 1 ==> d.attempts[i].reply != RetOk)
    && (forall i :: 0 <= i < |d.attempts| ==> ModuleOf(px, d.attempts[i].target).dll)
    && (forall i :: 0 <= i < |d.attempts| && d.attempts[i].target == MainModule && px.skipDestroyCalls ==>
          i == 0 && KindOf(px, context) == General)
  }

  lemma TryNextSound(prev: Destroyed, px: ProxyView, context: nat, id: ModuleId, eligible: bool, reply: ReturnCode)
    requires ChainSound(prev, px, context)
    requires eligible ==> ModuleOf(px, id).dll
    requires eligible && id == MainModule && px.skipDestroyCalls ==> prev.attempts == [] && KindOf(px, context) == General
    ensures ChainSound(TryNext(prev, id, eligible, reply), px, context)
  {
    var r := TryNext(prev, id, eligible, reply);
    if prev.code != RetOk && eligible {
      forall i | 0 <= i < |r.attempts| - 1 ensures r.attempts[i].reply != RetOk {
        assert r.attempts[i] == prev.attempts[i];
      }
    }
  }

  /**
   * Destruction forgets the context and changes nothing else; it succeeds
   * exactly when the last module it tried answered OK, every earlier try
   * failed, every module tried was loaded, and main was tried past the
   * guard only as a General context's own module. A failure is always
   * NO_PROVIDER.
   */
  lemma {:induction false} DestroyChainSound(px: ProxyView, context: nat, rep: DestroyReplies)
    ensures ChainSound(DestroyChain(px, context, rep), px, context)
  {
    var mapped := MappedModule(KindOf(px, context));
    var d0 := Destroyed(RetError, [], px.(contextToType := px.contextToType - {context}));
    var d1 := if mapped.Some? then TryNext(d0, mapped.value, ModuleOf(px, mapped.value).dll, rep.mapped) else d0;
    if mapped.Some? {
      TryNextSound(d0, px, context, mapped.value, ModuleOf(px, mapped.value).dll, rep.mapped);
    }
    var d2 := TryNext(d1, UpscalingModule, px.upscaling.dll, rep.upscaling);
    TryNextSound(d1, px, context, UpscalingModule, px.upscaling.dll, rep.upscaling);
    var d3 := TryNext(d2, FgModule, px.fg.dll, rep.fg);
    TryNextSound(d2, px, context, FgModule, px.fg.dll, rep.fg);
    TryNextSound(d3, px, context, MainModule, px.main.dll && !px.skipDestroyCalls, rep.main);
  }

  lemma DestroyContextOutcome(px: ProxyView, context: nat, rep: DestroyReplies)
    ensures var r := DestroyContextSpec(px, context, rep);
      && context !in r.px.contextToType
      && (r.code == RetOk || r.code == RetNoProvider)
      && ChainSound(r, px, context)
  {
    DestroyChainSound(px, context, rep);
  }

  /**
   * The modules `D3D12_DestroyContext` would ask, in its order, were every
   * try to fail: the context's own module, then upscaling, frame generation
   * and, while the guard is down, main, each only when loaded.
   */
  function Candidates(px: ProxyView, context: nat, rep: DestroyReplies): seq<Attempt> {
    var mapped := MappedModule(KindOf(px, context));
    (if mapped.Some? then Tried(mapped.value, ModuleOf(px, mapped.value).dll, rep.mapped) else [])
    + Tried(UpscalingModule, px.upscaling.dll, rep.upscaling)
    + Tried(FgModule, px.fg.dll, rep.fg)
    + Tried(MainModule, px.main.dll && !px.skipDestroyCalls, rep.main)
  }

  /** The try of one module, when it is eligible. */
  function Tried(id: ModuleId, eligible: bool, reply: ReturnCode): seq<Attempt> {
    if eligible then [Attempt(id, reply)] else []
  }

  /** Some try in `cs` answers OK. */
  predicate HasOk(cs: seq<Attempt>) {
    exists i :: 0 <= i < |cs| && cs[i].reply == RetOk
  }

  /** The tries of `cs` up to and including the first that answers OK. */
  function UpToFirstOk(cs: seq<Attempt>): (r: seq<Attempt>)
    ensures r <= cs
    ensures HasOk(cs) <==> r != [] && r[|r| - 1].reply == RetOk
    ensures forall i :: 0 <= i < |r| - 1 ==> r[i].reply != RetOk
    ensures !HasOk(cs) ==> r == cs
  {
    if cs == [] then []
    else if cs[0].reply == RetOk then [cs[0]]
    else
      var t := UpToFirstOk(cs[1..]);
      assert HasOk(cs) <==> HasOk(cs[1..]) by {
        if HasOk(cs) {
          var i :| 0 <= i < |cs| && cs[i].reply == RetOk;
          assert cs[1..][i - 1] == cs[i];
        }
        if HasOk(cs[1..]) {
          var i :| 0 <= i < |cs[1..]| && cs[1..][i].reply == RetOk;
          assert cs[i + 1] == cs[1..][i];
        }
      }
      [cs[0]] + t
  }

  /** Appending one try: it is taken only while no earlier one answered OK. */
  lemma {:induction false} UpToFirstOkSnoc(cs: seq<Attempt>, a: Attempt)
    ensures UpToFirstOk(cs + [a]) == if HasOk(cs) then UpToFirstOk(cs) else cs + [a]
    ensures HasOk(cs + [a]) <==> HasOk(cs) || a.reply == RetOk
  {
    var ca := cs + [a];
    assert HasOk(cs + [a]) <==> HasOk(cs) || a.reply == RetOk by {
      if HasOk(cs) {
        var i :| 0 <= i < |cs| && cs[i].reply == RetOk;
        assert ca[i] == cs[i];
      }
      if a.reply == RetOk {
        assert ca[|cs|] == a;
      }
      if HasOk(ca) {
        var i :| 0 <= i < |ca| && ca[i].reply == RetOk;
        if i < |cs| {
          assert cs[i] == ca[i];
        }
      }
    }
    if cs != [] {
      assert ca[0] == cs[0] && ca[1..] == cs[1..] + [a];
      UpToFirstOkSnoc(cs[1..], a);
      if cs[0].reply != RetOk {
        assert HasOk(cs) <==> HasOk(cs[1..]) by {
          if HasOk(cs) {
            var i :| 0 <= i < |cs| && cs[i].reply == RetOk;
            assert cs[1..][i - 1] == cs[i];
          }
          if HasOk(cs[1..]) {
            var i :| 0 <= i < |cs[1..]| && cs[1..][i].reply == RetOk;
            assert cs[i + 1] == cs[1..][i];
          }
        }
      }
    } else {
      assert ca == [a];
    }
  }

  /** The chain so far agrees with the reference on the modules it has passed. */
  ghost predicate Follows(d: Destroyed, done: seq<Attempt>) {
    d.attempts == UpToFirstOk(done) && (d.code == RetOk <==> HasOk(done))
  }

  lemma TryNextFollows(prev: Destroyed, done: seq<Attempt>, id: ModuleId, eligible: bool, reply: ReturnCode)
    requires Follows(prev, done)
    ensures Follows(TryNext(prev, id, eligible, reply), done + Tried(id, eligible, reply))
  {
    if eligible {
      UpToFirstOkSnoc(done, Attempt(id, reply));
    } else {
      assert done + [] == done;
    }
  }

  /** The three fixed steps of the chain, after the context's own module. */
  lemma ChainTailFollows(d1: Destroyed, c1: seq<Attempt>, u: bool, ru: ReturnCode, f: bool, rf: ReturnCode,
                         m: bool, rm: ReturnCode)
    requires Follows(d1, c1)
    ensures Follows(TryNext(TryNext(TryNext(d1, UpscalingModule, u, ru), FgModule, f, rf), MainModule, m, rm),
                    c1 + Tried(UpscalingModule, u, ru) + Tried(FgModule, f, rf) + Tried(MainModule, m, rm))
  {
    var d2 := TryNext(d1, UpscalingModule, u, ru);
    TryNextFollows(d1, c1, UpscalingModule, u, ru);
    var d3 := TryNext(d2, FgModule, f, rf);
    TryNextFollows(d2, c1 + Tried(UpscalingModule, u, ru), FgModule, f, rf);
    TryNextFollows(d3, c1 + Tried(UpscalingModule, u, ru) + Tried(FgModule, f, rf), MainModule, m, rm);
  }

  /**
   * Completeness and order: the chain asks exactly the candidate modules,
   * in order, up to the first that answers OK, and succeeds exactly when
   * one of them does.
   */
  lemma {:induction false} DestroyChainComplete(px: ProxyView, context: nat, rep: DestroyReplies)
    ensures Follows(DestroyChain(px, context, rep), Candidates(px, context, rep))
  {
    var mapped := MappedModule(KindOf(px, context));
    var d0 := Destroyed(RetError, [], px.(contextToType := px.contextToType - {context}));
    var c1 := if mapped.Some? then Tried(mapped.value, ModuleOf(px, mapped.value).dll, rep.mapped) else [];
    var d1 := if mapped.Some? then TryNext(d0, mapped.value, ModuleOf(px, mapped.value).dll, rep.mapped) else d0;
    assert Follows(d1, c1) by {
      assert Follows(d0, []);
      if mapped.Some? {
        TryNextFollows(d0, [], mapped.value, ModuleOf(px, mapped.value).dll, rep.mapped);
        assert [] + c1 == c1;
      }
    }
    ChainTailFollows(d1, c1, px.upscaling.dll, rep.upscaling, px.fg.dll, rep.fg,
                     px.main.dll && !px.skipDestroyCalls, rep.main);
  }

  /**
   * NO_PROVIDER means every candidate module was asked, in order, and
   * every one failed; OK means the last one asked answered OK.
   */
  lemma DestroyContextNoProvider(px: ProxyView, context: nat, rep: DestroyReplies)
    ensures var r := DestroyContextSpec(px, context, rep); var cs := Candidates(px, context, rep);
      && (r.code == RetNoProvider <==> !HasOk(cs))
      && (r.code == RetNoProvider ==> r.attempts == cs && forall i :: 0 <= i < |cs| ==> cs[i].reply != RetOk)
      && (r.code == RetOk ==> r.attempts <= cs && r.attempts[|r.attempts| - 1].reply == RetOk)
  {
    DestroyChainComplete(px, context, rep);
  }

  /**
   * With only the main module loaded, a context of any kind but General is
   * destroyed through main exactly when the guard is down, so a destroy
   * re-entering from main's own `DestroyContext` reaches no module.
   */
  lemma DestroyThroughMainGuarded(px: ProxyView, context: nat, rep: DestroyReplies)
    requires px.main.dll && !px.upscaling.dll && !px.fg.dll
    requires KindOf(px, context) != General
    ensures DestroyContextSpec(px, context, rep).attempts ==
      if px.skipDestroyCalls then [] else [Attempt(MainModule, rep.main)]
  {
  }

  /** A General context goes to main first, whatever the guard says. */
  lemma GeneralContextBypassesGuard(px: ProxyView, context: nat, rep: DestroyReplies)
    requires px.main.dll && KindOf(px, context) == General
    ensures DestroyContextSpec(px, context, rep).attempts[0] == Attempt(MainModule, rep.mapped)
  {
  }

  // ---------------------------------------------------------------------------
  // Loading
  // ---------------------------------------------------------------------------

  /** What the DLL search yields: whether a DLL was found and which entry points it exports. */
  datatype Search = Search(found: bool, exports: Exports)

  /**
   * The load steps shared by the three `InitFfxDx12*` functions: take a
   * passed handle, search when there is still none, and resolve the
   * exports when a DLL is held and `Configure` is not yet resolved.
   */
  function LoadModule(m: Module, given: bool, s: Search): (r: Module)
    ensures r.dll <==> m.dll || given || s.found
    ensures r.version == m.version && r.skip == m.skip
    ensures r.fns == (if r.dll && !m.fns.configure then s.exports else m.fns)
  {
    var dll := given || m.dll || s.found;
    m.(dll := dll, fns := if dll && !m.fns.configure then s.exports else m.fns)
  }

  /**
   * `InitFfxDx12_SR` / `InitFfxDx12_FG` as `InitFfxDx12` calls them (no
   * handle passed): nothing to do when loaded and able to create; otherwise
   * load, and the result is whether the module can create contexts.
   */
  function InitSubmoduleSpec(m: Module, s: Search): (r: (bool, Module))
    ensures m.dll && m.fns.create ==> r == (true, m)
    ensures r.0 <==> r.1.fns.create
    ensures !(m.dll && m.fns.create) ==> (r.1.dll ==> r.1.fns.create)
    ensures r.1.version == m.version && r.1.skip == m.skip
  {
    if m.dll && m.fns.create then (true, m)
    else
      var m1 := LoadModule(m, false, s);
      if m1.fns.create then (true, m1) else (false, m1.(dll := false))
  }

  /** The search outcomes of one `InitFfxDx12` call and whether a handle was passed to it. */
  datatype InitOutcomes = InitOutcomes(given: bool, main: Search, upscaling: Search, fg: Search)

  /**
   * `InitFfxDx12`: nothing to do when the main module is loaded and can
   * create; otherwise load it and both submodules. The result is whether
   * any of the three can create contexts; if none can, the main handle is
   * dropped.
   */
  function InitFfxDx12Spec(px: ProxyView, io: InitOutcomes): (r: (bool, ProxyView))
    ensures r.0 <==> r.1.main.fns.create || r.1.upscaling.fns.create || r.1.fg.fns.create
    ensures r.1.contextToType == px.contextToType && r.1.skipDestroyCalls == px.skipDestroyCalls
  {
    if px.main.dll && px.main.fns.create then (true, px)
    else
      var main1 := LoadModule(px.main, io.given, io.main);
      var sr := InitSubmoduleSpec(px.upscaling, io.upscaling);
      var fg := InitSubmoduleSpec(px.fg, io.fg);
      var ok := main1.fns.create || sr.1.fns.create || fg.1.fns.create;
      (ok, px.(main := if ok then main1 else main1.(dll := false), upscaling := sr.1, fg := fg.1))
  }

  /**
   * The load result: unchanged state when main is already usable; otherwise
   * true exactly when one of the three modules can create contexts, a
   * submodule keeps its handle only if it can, and on false the main
   * handle is dropped. Contexts, guards and cached versions are untouched.
   */
  lemma InitFfxDx12Outcome(px: ProxyView, io: InitOutcomes)
    ensures var r := InitFfxDx12Spec(px, io);
      && (px.main.dll && px.main.fns.create ==> r == (true, px))
      && (r.0 <==> r.1.main.fns.create || r.1.upscaling.fns.create || r.1.fg.fns.create)
      && (!r.0 ==> !r.1.main.dll && !r.1.upscaling.dll && !r.1.fg.dll)
      && (!(px.main.dll && px.main.fns.create) ==>
            (r.1.upscaling.dll ==> r.1.upscaling.fns.create) && (r.1.fg.dll ==> r.1.fg.fns.create))
      && r.1.contextToType == px.contextToType && r.1.skipDestroyCalls == px.skipDestroyCalls
      && r.1.main.skip == px.main.skip && r.1.upscaling.skip == px.upscaling.skip && r.1.fg.skip == px.fg.skip
      && r.1.main.version == px.main.version && r.1.upscaling.version == px.upscaling.version
      && r.1.fg.version == px.fg.version
  {
  }

  /** Once a load succeeded, loading again changes nothing. */
  lemma InitFfxDx12Idempotent(px: ProxyView, io: InitOutcomes, io2: InitOutcomes)
    requires InitFfxDx12Spec(px, io).1.main.dll && InitFfxDx12Spec(px, io).1.main.fns.create
    ensures var px1 := InitFfxDx12Spec(px, io).1; InitFfxDx12Spec(px1, io2) == (true, px1)
  {
  }

  // ---------------------------------------------------------------------------
  // Versions
  // ---------------------------------------------------------------------------

  /**
   * The answers of one module to the two GET_VERSIONS queries: the count
   * written by the first, both return codes, and the first version name.
   */
  datatype VersionAnswer = VersionAnswer(count: nat, first: ReturnCode, second: ReturnCode, name: string)

  datatype VersionAnswers = VersionAnswers(main: VersionAnswer, upscaling: VersionAnswer, fg: VersionAnswer)

  /**
   * The query sequence shared by the three `VersionDx12*` functions. The
   * proxy's own copy of `parse_version` is the FSR 3.1 adapter's, as
   * written: it overwrites the cache with partial matches too.
   */
  function QueryVersion(m: Module, a: VersionAnswer): (r: Module)
    ensures r.dll == m.dll && r.fns == m.fns && r.skip == m.skip
    ensures !(a.count > 0 && a.first == RetOk && a.second == RetOk) ==> r == m
    ensures r.version == m.version || exists q :: 0 <= q < |a.name| && Fsr31Feature.IsDigit(a.name[q])
  {
    if a.count > 0 && a.first == RetOk && a.second == RetOk then
      Fsr31Feature.ParseVersionAsWrittenNeedsDigit(a.name, m.version);
      m.(version := Fsr31Feature.ParseVersionAsWritten(a.name, m.version))
    else m
  }

  /** Version lookups only fill the version caches. */
  predicate OnlyVersionsChange(px: ProxyView, px': ProxyView) {
    && px'.contextToType == px.contextToType && px'.skipDestroyCalls == px.skipDestroyCalls
    && px'.main.dll == px.main.dll && px'.main.fns == px.main.fns && px'.main.skip == px.main.skip
    && px'.upscaling.dll == px.upscaling.dll && px'.upscaling.fns == px.upscaling.fns
    && px'.upscaling.skip == px.upscaling.skip
    && px'.fg.dll == px.fg.dll && px'.fg.fns == px.fg.fns && px'.fg.skip == px.fg.skip
  }

  /** `VersionDx12`: query main while nothing is cached, then fall back to SR and FG. */
  function VersionDx12Spec(px: ProxyView, qs: VersionAnswers): (r: (FeatureVersion, ProxyView))
    ensures r.0 == r.1.main.version
    ensures OnlyVersionsChange(px, r.1)
    decreases 1
  {
    var px1 := if px.main.version.major == 0 && px.main.fns.query
               then px.(main := QueryVersion(px.main, qs.main)) else px;
    var px2 := if px1.main.version.major == 0 && px1.upscaling.fns.query
               then var sr := VersionSrSpec(px1, qs); sr.1.(main := sr.1.main.(version := sr.0)) else px1;
    var px3 := if px2.main.version.major == 0 && px2.fg.fns.query
               then var fg := VersionFgSpec(px2, qs); fg.1.(main := fg.1.main.(version := fg.0)) else px2;
    (px3.main.version, px3)
  }

  /** `VersionDx12_SR`: the upscaling module's version, or main's when it cannot be queried. */
  function VersionSrSpec(px: ProxyView, qs: VersionAnswers): (r: (FeatureVersion, ProxyView))
    ensures OnlyVersionsChange(px, r.1)
    ensures px.upscaling.fns.query ==> r.0 == r.1.upscaling.version && r.1 == px.(upscaling := r.1.upscaling)
    ensures px.upscaling.fns.query && px.upscaling.version.major != 0 ==> r == (px.upscaling.version, px)
    ensures !px.upscaling.fns.query ==> r.0 == r.1.main.version
    decreases if px.upscaling.fns.query then 0 else 2
  {
    if !px.upscaling.fns.query then VersionDx12Spec(px, qs)
    else
      var u := if px.upscaling.version.major == 0 then QueryVersion(px.upscaling, qs.upscaling) else px.upscaling;
      (u.version, px.(upscaling := u))
  }

  /** `VersionDx12_FG`: the frame-generation module's version, or main's when it cannot be queried. */
  function VersionFgSpec(px: ProxyView, qs: VersionAnswers): (r: (FeatureVersion, ProxyView))
    ensures OnlyVersionsChange(px, r.1)
    ensures px.fg.fns.query ==> r.0 == r.1.fg.version && r.1 == px.(fg := r.1.fg)
    ensures px.fg.fns.query && px.fg.version.major != 0 ==> r == (px.fg.version, px)
    ensures !px.fg.fns.query ==> r.0 == r.1.main.version
    decreases if px.fg.fns.query then 0 else 2
  {
    if !px.fg.fns.query then VersionDx12Spec(px, qs)
    else
      var g := if px.fg.version.major == 0 then QueryVersion(px.fg, qs.fg) else px.fg;
      (g.version, px.(fg := g))
  }

  /**
   * `VersionDx12` never overwrites a non-zero cached version of any
   * module, and with main's cached it returns that and changes nothing.
   */
  lemma VersionDx12Caches(px: ProxyView, qs: VersionAnswers)
    ensures var r := VersionDx12Spec(px, qs);
      && (px.main.version.major != 0 ==> r == (px.main.version, px))
      && (px.upscaling.version.major != 0 ==> r.1.upscaling.version == px.upscaling.version)
      && (px.fg.version.major != 0 ==> r.1.fg.version == px.fg.version)
  {
  }

  /** A cached non-zero version is returned again without asking any module. */
  lemma VersionDx12Idempotent(px: ProxyView, qs: VersionAnswers, qs2: VersionAnswers)
    requires VersionDx12Spec(px, qs).0.major != 0
    ensures var r := VersionDx12Spec(px, qs); VersionDx12Spec(r.1, qs2) == r
  {
    VersionDx12Caches(px, qs);
    var r := VersionDx12Spec(px, qs);
    VersionDx12Caches(r.1, qs2);
  }

  /** A query the main module answers with "<prefix>M.m.p" yields that version. */
  lemma VersionFromMainQuery(px: ProxyView, qs: VersionAnswers, prefix: string, v: FeatureVersion)
    requires px.main.version.major == 0 && px.main.fns.query
    requires qs.main.count > 0 && qs.main.first == RetOk && qs.main.second == RetOk
    requires qs.main.name == prefix + Fsr31Feature.FormatVersion(v)
    requires forall i :: 0 <= i < |prefix| ==> !Fsr31Feature.IsDigit(prefix[i])
    requires v.major != 0 && Fsr31Feature.Fits(v)
    ensures VersionDx12Spec(px, qs).0 == v
  {
    Fsr31Feature.ParseVersionAsWrittenRoundTrip(prefix, v, px.main.version);
  }

  /**
   * The proxy's copy of the `parse_version` defect: main answering "v3.1",
   * which holds no full version, still fills the empty cache with 1.1.0,
   * which is returned, so the upscaling and frame-generation modules are
   * never asked.
   */
  lemma VersionDx12TakesPartialMatch(px: ProxyView, qs: VersionAnswers)
    requires px.main.version == FeatureVersion(0, 0, 0) && px.main.fns.query
    requires qs.main == VersionAnswer(1, RetOk, RetOk, "v3.1")
    ensures VersionDx12Spec(px, qs) == (FeatureVersion(1, 1, 0), px.(main := px.main.(version := FeatureVersion(1, 1, 0))))
  {
    Fsr31Feature.ParseVersionAsWrittenOverwritesOnFailure(qs.main.name, px.main.version);
  }

  /**
   * When main has no query entry point, the upscaling module's cached
   * version is used; only when that is zero too does frame generation's
   * cached version count.
   */
  lemma VersionFallbackOrder(px: ProxyView, qs: VersionAnswers)
    requires px.main.version.major == 0 && !px.main.fns.query
    requires px.upscaling.fns.query && px.fg.fns.query
    ensures px.upscaling.version.major != 0 ==> VersionDx12Spec(px, qs).0 == px.upscaling.version
    ensures px.upscaling.version.major == 0 && qs.upscaling.count == 0 && px.fg.version.major != 0 ==>
      VersionDx12Spec(px, qs).0 == px.fg.version
  {
  }

  // ---------------------------------------------------------------------------
  // The proxy's state
  // ---------------------------------------------------------------------------

  /** `FfxApiProxy`'s static DX12 state. */
  class Proxy {
    var main: Module
    var upscaling: Module
    var fg: Module
    var contextToType: map<nat, StructKind>
    var skipDestroyCalls: bool

    function Snap(): ProxyView
      reads this
    {
      ProxyView(main, upscaling, fg, contextToType, skipDestroyCalls)
    }

    /** Nothing loaded, nothing cached, no guard raised. */
    constructor ()
      ensures Snap() == ProxyView(EmptyModule, EmptyModule, EmptyModule, map[], false)
      ensures AtRest(Snap())
    {
      main, upscaling, fg := EmptyModule, EmptyModule, EmptyModule;
      contextToType := map[];
      skipDestroyCalls := false;
    }

    /**
     * The routing shared by create, configure, query and dispatch. `seen`
     * is the state the main module's entry point runs in, when it is called.
     */
    method Route(call: CallKind, kind: StructKind, rep: Replies)
      returns (code: ReturnCode, server: Option<ModuleId>, ghost seen: Option<ProxyView>)
      modifies this
      ensures Routed(code, server, Snap()) == RouteSpec(old(Snap()), call, kind, rep)
      ensures seen.Some? <==> server == Some(MainModule)
      ensures seen.Some? ==> seen.value == DuringMainCall(old(Snap()), call, kind)
    {
      var isFg := IsFgKind(kind);
      seen := None;
      if isFg && fg.dll {
        return rep.fg, Some(FgModule), None;
      } else if !isFg && upscaling.dll {
        return rep.upscaling, Some(UpscalingModule), None;
      }
      if main.dll && !(isFg && Skipping(fg, call)) && !(!isFg && Skipping(upscaling, call)) {
        var saved := if isFg then fg else upscaling;
        if isFg {
          fg := SetSkip(fg, call, true);
        } else {
          upscaling := SetSkip(upscaling, call, true);
        }
        seen := Some(Snap());
        code := rep.main;
        if isFg {
          fg := SetSkip(fg, call, false);
          assert fg == saved;
        } else {
          upscaling := SetSkip(upscaling, call, false);
          assert upscaling == saved;
        }
        return code, Some(MainModule), seen;
      }
      return RetNoProvider, None, None;
    }

    /** `D3D12_CreateContext`. */
    method CreateContext(context: nat, descType: StructType, rep: Replies)
      returns (code: ReturnCode, server: Option<ModuleId>)
      modifies this
      ensures Routed(code, server, Snap()) == CreateContextSpec(old(Snap()), context, descType, rep)
    {
      var kind := GetType(descType);
      contextToType := contextToType[context := kind];
      ghost var seen;
      code, server, seen := Route(CreateCall, kind, rep);
    }

    /** `D3D12_Configure`. */
    method Configure(descType: StructType, rep: Replies) returns (code: ReturnCode, server: Option<ModuleId>)
      modifies this
      ensures Routed(code, server, Snap()) == RouteSpec(old(Snap()), ConfigureCall, GetType(descType), rep)
    {
      ghost var seen;
      code, server, seen := Route(ConfigureCall, GetType(descType), rep);
    }

    /** `D3D12_Query`, classified through `GetIndirectType`. */
    method Query(headers: seq<StructType>, rep: Replies) returns (code: ReturnCode, server: Option<ModuleId>)
      requires |headers| >= 1
      requires IsVersionQuery(headers[0]) ==> |headers| >= 2
      modifies this
      ensures Routed(code, server, Snap()) == RouteSpec(old(Snap()), QueryCall, GetIndirectType(headers), rep)
    {
      ghost var seen;
      code, server, seen := Route(QueryCall, GetIndirectType(headers), rep);
    }

    /** `D3D12_Dispatch`. */
    method Dispatch(descType: StructType, rep: Replies) returns (code: ReturnCode, server: Option<ModuleId>)
      modifies this
      ensures Routed(code, server, Snap()) == RouteSpec(old(Snap()), DispatchCall, GetType(descType), rep)
    {
      ghost var seen;
      code, server, seen := Route(DispatchCall, GetType(descType), rep);
    }

    /**
     * `D3D12_DestroyContext`, step by step as the chain is written; each
     * `return` on OK is folded into the guard of the steps after it.
     */
    method DestroyContext(context: nat, rep: DestroyReplies) returns (code: ReturnCode, attempts: seq<Attempt>)
      modifies this
      ensures Destroyed(code, attempts, Snap()) == DestroyContextSpec(old(Snap()), context, rep)
    {
      ghost var px := Snap();
      var kind := Unknown;
      if context in contextToType {
        kind := contextToType[context];
      }
      contextToType := contextToType - {context};
      code, attempts := RetError, [];
      ghost var d := Destroyed(code, attempts, Snap());
      var mapped := MappedModule(kind);
      code, attempts := DestroyWithMapped(mapped, rep.mapped);
      d := if mapped.Some? then TryNext(d, mapped.value, ModuleOf(px, mapped.value).dll, rep.mapped) else d;
      assert code == d.code && attempts == d.attempts;
      if code != RetOk && upscaling.dll {
        code, attempts := rep.upscaling, attempts + [Attempt(UpscalingModule, rep.upscaling)];
      }
      d := TryNext(d, UpscalingModule, px.upscaling.dll, rep.upscaling);
      assert code == d.code && attempts == d.attempts;
      if code != RetOk && fg.dll {
        code, attempts := rep.fg, attempts + [Attempt(FgModule, rep.fg)];
      }
      d := TryNext(d, FgModule, px.fg.dll, rep.fg);
      assert code == d.code && attempts == d.attempts;
      if code != RetOk && main.dll && !skipDestroyCalls {
        skipDestroyCalls := true;
        code, attempts := rep.main, attempts + [Attempt(MainModule, rep.main)];
        skipDestroyCalls := false;
      }
      d := TryNext(d, MainModule, px.main.dll && !px.skipDestroyCalls, rep.main);
      assert code == d.code && attempts == d.attempts;
      assert Snap() == d.px;
      assert d == DestroyChain(px, context, rep);
      if code != RetOk {
        code := RetNoProvider;
      }
    }

    /** The `switch` of `D3D12_DestroyContext`: the try with the module of the context's kind. */
    method DestroyWithMapped(mapped: Option<ModuleId>, reply: ReturnCode) returns (code: ReturnCode, attempts: seq<Attempt>)
      ensures mapped.Some? && ModuleOf(Snap(), mapped.value).dll ==> code == reply && attempts == [Attempt(mapped.value, reply)]
      ensures !(mapped.Some? && ModuleOf(Snap(), mapped.value).dll) ==> code == RetError && attempts == []
    {
      code, attempts := RetError, [];
      if mapped == Some(MainModule) && main.dll {
        code, attempts := reply, [Attempt(MainModule, reply)];
      } else if mapped == Some(UpscalingModule) && upscaling.dll {
        code, attempts := reply, [Attempt(UpscalingModule, reply)];
      } else if mapped == Some(FgModule) && fg.dll {
        code, attempts := reply, [Attempt(FgModule, reply)];
      }
    }

    /** The submodule half of `InitFfxDx12_SR`. */
    method InitUpscaling(s: Search) returns (ok: bool)
      modifies this
      ensures (ok, Snap()) == (InitSubmoduleSpec(old(upscaling), s).0,
                               old(Snap()).(upscaling := InitSubmoduleSpec(old(upscaling), s).1))
    {
      if upscaling.dll && upscaling.fns.create {
        return true;
      }
      upscaling := LoadModule(upscaling, false, s);
      ok := upscaling.fns.create;
      if !ok {
        upscaling := upscaling.(dll := false);
      }
    }

    /** The submodule half of `InitFfxDx12_FG`. */
    method InitFg(s: Search) returns (ok: bool)
      modifies this
      ensures (ok, Snap()) == (InitSubmoduleSpec(old(fg), s).0, old(Snap()).(fg := InitSubmoduleSpec(old(fg), s).1))
    {
      if fg.dll && fg.fns.create {
        return true;
      }
      fg := LoadModule(fg, false, s);
      ok := fg.fns.create;
      if !ok {
        fg := fg.(dll := false);
      }
    }

    /** `InitFfxDx12`. */
    method InitFfxDx12(io: InitOutcomes) returns (ok: bool)
      modifies this
      ensures (ok, Snap()) == InitFfxDx12Spec(old(Snap()), io)
    {
      if main.dll && main.fns.create {
        return true;
      }
      main := LoadModule(main, io.given, io.main);
      var srOk := InitUpscaling(io.upscaling);
      var fgOk := InitFg(io.fg);
      ok := main.fns.create || upscaling.fns.create || fg.fns.create;
      if !ok {
        main := main.(dll := false);
      }
    }

    /** `VersionDx12`. */
    method VersionDx12(qs: VersionAnswers) returns (v: FeatureVersion)
      modifies this
      decreases 1
      ensures (v, Snap()) == VersionDx12Spec(old(Snap()), qs)
    {
      if main.version.major == 0 && main.fns.query {
        main := QueryVersion(main, qs.main);
      }
      if main.version.major == 0 && upscaling.fns.query {
        var sv := VersionDx12Sr(qs);
        main := main.(version := sv);
      }
      if main.version.major == 0 && fg.fns.query {
        var fv := VersionDx12Fg(qs);
        main := main.(version := fv);
      }
      v := main.version;
    }

    /** `VersionDx12_SR`. */
    method VersionDx12Sr(qs: VersionAnswers) returns (v: FeatureVersion)
      modifies this
      decreases if upscaling.fns.query then 0 else 2
      ensures (v, Snap()) == VersionSrSpec(old(Snap()), qs)
    {
      if !upscaling.fns.query {
        v := VersionDx12(qs);
        return;
      }
      if upscaling.version.major == 0 {
        upscaling := QueryVersion(upscaling, qs.upscaling);
      }
      v := upscaling.version;
    }

    /** `VersionDx12_FG`. */
    method VersionDx12Fg(qs: VersionAnswers) returns (v: FeatureVersion)
      modifies this
      decreases if fg.fns.query then 0 else 2
      ensures (v, Snap()) == VersionFgSpec(old(Snap()), qs)
    {
      if !fg.fns.query {
        v := VersionDx12(qs);
        return;
      }
      if fg.version.major == 0 {
        fg := QueryVersion(fg, qs.fg);
      }
      v := fg.version;
    }
  }

  /** Every routed call, create included, leaves the proxy at rest when it found it at rest. */
  lemma RoutingKeepsAtRest(px: ProxyView, call: CallKind, kind: StructKind, rep: Replies,
                           context: nat, descType: StructType, drep: DestroyReplies, io: InitOutcomes, qs: VersionAnswers)
    requires AtRest(px)
    ensures AtRest(RouteSpec(px, call, kind, rep).px)
    ensures AtRest(CreateContextSpec(px, context, descType, rep).px)
    ensures AtRest(DestroyContextSpec(px, context, drep).px)
    ensures AtRest(InitFfxDx12Spec(px, io).1)
    ensures AtRest(VersionDx12Spec(px, qs).1)
  {
    InitFfxDx12Outcome(px, io);
    VersionDx12Caches(px, qs);
  }
}
