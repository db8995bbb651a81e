# OptiScaler upscaler core, modelled in Dafny

OptiScaler stands between a game and the upscaler the game asked for. A
game calls NVIDIA's NGX API (or AMD's FidelityFX API), and OptiScaler
answers with the backend the user chose: XeSS, FSR 2.1/2.2/3.1, native DLSS
or DLSS-D. This project models the core of that mechanism and proves what
it promises:

- **`upscalers.dfy`** (module `Upscalers`): the backend identifiers and
  the NGX parameter table with its `OptiScaler` = 1 sentinel. It also holds
  the per-handle `ContextData`, the shared `State` and `Config` singletons
  (Dafny classes), and the target-normalisation and retry rules that the
  three providers share.
- **`feature_provider_dx12.dfy`**, **`feature_provider_dx11.dfy`** and
  **`feature_provider_vk.dfy`**: each provider's `GetFeature` and its
  three-call `ChangeFeature` state machine.
  - The machine tears the old upscaler down and snapshots its creation
    values.
  - It then rebuilds the target from the snapshot, then runs `Init` and
    either completes or re-arms.
  - Every method changes the `State`/`Config` objects in place and is
    proved equal to a pure `...Spec` function. The lemmas are stated about
    those functions, up to the full three-call switch.
- **`nvngx_dlss_dx12.dfy`** (module `NvngxDlssDx12`): the DX12 NGX entry
  points over the handle registry `Dx12Contexts`. They are create, release
  and per-frame evaluate, plus the init calls with their already-inited
  guard and `ScopedInit`. The registry invariant is proved preserved by
  every entry point.
- **`ffx_api_proxy.dfy`** (module `FfxApiProxy`), the FidelityFX proxy:
  - the struct-type mapping;
  - the routing of create/configure/query/dispatch between the upscaling,
    frame-generation and main modules, with the re-entrancy guard;
  - the destroy chain;
  - the load result of `InitFfxDx12`;
  - the cached version queries;
  - `ReturnCodeToString`.
- **`sys_utils.dfy`**: `feature_version` ordering, `to_lower_in_place` (an
  in-place loop on an array) and the `OptiKeys` backend names.
- **`fsr31_feature.dfy`**: `ffxResolveTypelessFormat`, `parse_version`
  (both as written and corrected; see Findings) over a model of
  `sscanf`'s `%u` (leading white space, an optional sign, storage modulo
  2^32), and the default version and name.
- **`ifeature_dx12.dfy`**: the barrier helpers, which record on a command
  list given meaning by an `Apply` of barriers to resource states, and the
  destructor's shutdown guard.
- **`wrappers.dfy`**: `Option`.

What the outside world answers is a parameter of the model:

- whether an upscaler's module loads, and whether its `Init` and `Evaluate`
  succeed (`Adapters`, `Env`);
- native NGX results;
- which FidelityFX modules load and what their calls return (`Replies`,
  `DestroyReplies`, `InitOutcomes`, `VersionAnswers`).

## Model

| member | source | states |
|---|---|---|
| SysUtils.VersionEq | OptiScaler/SysUtils.h:106-109 | `==` holds exactly for equal versions |
| SysUtils.VersionNe | OptiScaler/SysUtils.h:111 | `!=` holds exactly for different versions |
| SysUtils.VersionLt | OptiScaler/SysUtils.h:113-120 | `<` never holds for equal versions nor against a smaller major, and always holds against a larger major |
| SysUtils.VersionGt | OptiScaler/SysUtils.h:122 | `>` never holds for equal versions nor against a larger major, and always holds against a smaller major |
| SysUtils.VersionLe | OptiScaler/SysUtils.h:124 | `<=` is `<` or equality |
| SysUtils.VersionGe | OptiScaler/SysUtils.h:126 | `>=` is the converse `<` or equality |
| SysUtils.VersionLtIsLexicographic | OptiScaler/SysUtils.h:113-120 | `operator<` is the lexicographic order on (major, minor, patch) |
| SysUtils.VersionEqIsEquality | OptiScaler/SysUtils.h:106-111 | `==` holds exactly for equal versions and `!=` exactly for different ones |
| SysUtils.VersionTrichotomy | OptiScaler/SysUtils.h:106-120 | of `<`, `==` and `>` exactly one holds for any two versions |
| SysUtils.VersionLtTransitive | OptiScaler/SysUtils.h:113-120 | `<` is transitive |
| SysUtils.DerivedOperators | OptiScaler/SysUtils.h:122-126 | `>`, `<=` and `>=` are the converse and reflexive closures of `<`; `<=` is antisymmetric |
| SysUtils.Fsr31Threshold_Ge | OptiScaler/inputs/NVNGX_DLSS_Dx12.cpp:987 | `v >= {3,1,0}` holds exactly for 3.1 and later |
| SysUtils.ToLower | OptiScaler/SysUtils.h:175 | `tolower` in the "C" locale: the result is never upper case; an upper-case letter becomes the lower-case letter at the same position, anything else is kept |
| SysUtils.LowerString | OptiScaler/SysUtils.h:173-176 | same length; each character is `tolower` of the input character |
| SysUtils.LowerStringChangesOnlyUpper | OptiScaler/SysUtils.h:173-176 | a character changes exactly when it is `A`-`Z`, and then by +32 |
| SysUtils.LowerStringIdempotent | OptiScaler/SysUtils.h:173-176 | lowering twice is lowering once |
| SysUtils.ToLowerInPlace | OptiScaler/SysUtils.h:173-176 | the array afterwards holds the lowered old contents |
| SysUtils.BackendKeys | OptiScaler/SysUtils.h:195-216 | the ten backend identifiers are pairwise distinct |
| Upscalers.KeyOf | OptiScaler/SysUtils.h:197-216 | each backend's identifier is one of the `OptiKeys` backend names |
| Upscalers.KeyOfInjective | OptiScaler/SysUtils.h:197-216 | distinct backends have distinct identifiers |
| Upscalers.DisplayName | OptiScaler/upscalers/FeatureProvider_Dx12.cpp:75-77 | the recorded name is never "dlssd"; any other name is kept |
| Upscalers.Lookup | OptiScaler/upscalers/FeatureProvider_Dx12.cpp:224 | `Get` succeeds exactly for a present key and yields its value |
| Upscalers.Snapshot | OptiScaler/upscalers/FeatureProvider_Dx12.cpp:128-134 | the six creation keys are set, every other key and the table's origin are kept |
| Upscalers.SnapshotRoundTrip | OptiScaler/upscalers/FeatureProvider_Dx12.cpp:128-134 | a feature built from the snapshot reads back exactly the old feature's creation values |
| Upscalers.NewScratchTable | OptiScaler/upscalers/FeatureProvider_Dx12.cpp:128 | a fresh provider table carries the `OptiScaler` = 1 sentinel |
| Upscalers.SnapshotKeepsOwner | OptiScaler/upscalers/FeatureProvider_Dx12.cpp:128-134 | copying creation values never adds or removes the sentinel |
| Upscalers.Construct | OptiScaler/upscalers/FeatureProvider_Dx12.cpp:28-64 | a new instance has the given id, handle and backend, is not inited, is loaded iff its module loads, and reads its creation values from the table |
| Upscalers.IdOf | OptiScaler/upscalers/FeatureProvider_Dx12.cpp:232 | `currentFeature` is null exactly when the owner is null, and otherwise the instance |
| Upscalers.TableList | OptiScaler/upscalers/FeatureProvider_Dx12.cpp:159-163 | a null table destroys nothing; a non-null one is destroyed once |
| Upscalers.ShapeIsPhaseReady | OptiScaler/upscalers/FeatureProvider_Dx12.cpp:172-189 | an entry between switch calls has the table and instance the next phase dereferences |
| Upscalers.SetArmed | OptiScaler/upscalers/FeatureProvider_Dx12.cpp:157 | writing `changeBackend[h]` sets that flag and no other |
| Upscalers.Config.constructor | OptiScaler/upscalers/FeatureProvider_Dx12.cpp:93 | the configuration object holds the given settings |
| Upscalers.State.constructor | OptiScaler/upscalers/FeatureProvider_Dx12.cpp:92 | the state object holds the given values |
| Upscalers.State.SetChangeBackend | OptiScaler/upscalers/FeatureProvider_Dx12.cpp:157 | the flag map is updated at one handle and nothing else changes |
| Upscalers.State.DestroyTable | OptiScaler/upscalers/FeatureProvider_Dx12.cpp:161 | the table is appended to the destroyed list and nothing else changes |
| Upscalers.State.NextFeatureId | OptiScaler/upscalers/FeatureProvider_Dx12.cpp:30 | a fresh instance identity is handed out and the counter advances by one |
| Upscalers.NormalizeTarget | OptiScaler/upscalers/FeatureProvider_Dx12.cpp:98-102 | an empty target, or "dlss" while DLSS is disabled, becomes the configured upscaler; any other target is kept |
| Upscalers.NormalizeTargetIdempotent | OptiScaler/upscalers/FeatureProvider_Dx12.cpp:98-102 | normalising a normalised target changes nothing |
| Upscalers.RenormalizedTargetIsDlssd | OptiScaler/upscalers/FeatureProvider_Dx12.cpp:98-102 | a target re-normalised after the setting changed is "dlssd" exactly when it was |
| Upscalers.RetryTarget | OptiScaler/upscalers/FeatureProvider_Dx12.cpp:197-208 | after a failed init the target is "dlssd" iff it was "dlssd", "xess" iff another target failed while "dlss" is configured, and otherwise "fsr21" |
| FeatureProviderDx12.Select | OptiScaler/upscalers/FeatureProvider_Dx12.cpp:28-64 | DLSS/DLSSD are chosen only when asked for, enabled and found on disk; the recorded name is the backend's identifier |
| FeatureProviderDx12.GetFeatureSpec | OptiScaler/upscalers/FeatureProvider_Dx12.cpp:17-82 | always succeeds; the instance's module loaded or it is FSR 2.1.2; the recorded upscaler is the built backend's display name; only the instance counter and that setting change |
| FeatureProviderDx12.GetFeatureDlssGate | OptiScaler/upscalers/FeatureProvider_Dx12.cpp:44-73 | DLSS (DLSSD) is built iff "dlss" ("dlssd") is asked for, DLSS is enabled, its path is set and its module loads |
| FeatureProviderDx12.GetFeatureRecognisedName | OptiScaler/upscalers/FeatureProvider_Dx12.cpp:28-43 | a recognised name whose module loads is built and recorded as asked |
| FeatureProviderDx12.GetFeatureUnknownName | OptiScaler/upscalers/FeatureProvider_Dx12.cpp:54-64 | any other name builds FSR 2.1.2 and records "fsr21" |
| FeatureProviderDx12.GetFeature | OptiScaler/upscalers/FeatureProvider_Dx12.cpp:17-82 | the method's result, instance and new state are those of `GetFeatureSpec` |
| FeatureProviderDx12.RecordUpscaler | OptiScaler/upscalers/FeatureProvider_Dx12.cpp:75-79 | `Dx12Upscaler` is set to the name with "dlssd" shown as "dlss"; no other setting changes |
| FeatureProviderDx12.TeardownSpec | OptiScaler/upscalers/FeatureProvider_Dx12.cpp:109-169 | phase 1 succeeds, leaves the settings alone and touches no other handle's flag |
| FeatureProviderDx12.RebuildSpec | OptiScaler/upscalers/FeatureProvider_Dx12.cpp:172-184 | phase 2 leaves an instance in the entry and keeps its counter and table |
| FeatureProviderDx12.InitSpec | OptiScaler/upscalers/FeatureProvider_Dx12.cpp:187-229 | phase 3 resets the counter, keeps an instance and the settings, and touches no other handle's flag |
| FeatureProviderDx12.ChangeFeatureSpec | OptiScaler/upscalers/FeatureProvider_Dx12.cpp:84-238 | on an un-armed handle the call returns false and changes nothing |
| FeatureProviderDx12.Teardown | OptiScaler/upscalers/FeatureProvider_Dx12.cpp:109-169 | the method's effect is `TeardownSpec`'s |
| FeatureProviderDx12.Rebuild | OptiScaler/upscalers/FeatureProvider_Dx12.cpp:172-184 | the method's effect is `RebuildSpec`'s |
| FeatureProviderDx12.InitPhase | OptiScaler/upscalers/FeatureProvider_Dx12.cpp:187-229 | the method's effect is `InitSpec`'s |
| FeatureProviderDx12.ChangeFeature | OptiScaler/upscalers/FeatureProvider_Dx12.cpp:84-238 | the method's effect is `ChangeFeatureSpec`'s |
| FeatureProviderDx12.ChangeFeatureKeepsShape | OptiScaler/upscalers/FeatureProvider_Dx12.cpp:104-229 | a call keeps the entry at rest or mid-switch, and an armed call advances the counter modulo 3 |
| FeatureProviderDx12.ChangeFeatureIsLocal | OptiScaler/upscalers/FeatureProvider_Dx12.cpp:84-238 | no other handle's flag changes; only `Dx12Upscaler` may change, and only in phase 2 |
| FeatureProviderDx12.ChangeFeatureTeardown | OptiScaler/upscalers/FeatureProvider_Dx12.cpp:119-151 | the snapshot goes into the caller's table for a DLSS target and a fresh `OptiDx12` table otherwise; it holds the old creation values; the delay is 100 ms with the fast-reset quirk and 1000 ms without; the instance and `currentFeature` are null |
| FeatureProviderDx12.ChangeFeatureAbandon | OptiScaler/upscalers/FeatureProvider_Dx12.cpp:152-166 | without an instance the switch is abandoned: flag cleared, target emptied, entry reset, a held table destroyed |
| FeatureProviderDx12.ChangeFeatureRebuild | OptiScaler/upscalers/FeatureProvider_Dx12.cpp:172-184 | phase 2's instance is what `GetFeature` builds for the normalised target from the snapshot |
| FeatureProviderDx12.ChangeFeatureInit | OptiScaler/upscalers/FeatureProvider_Dx12.cpp:187-232 | a failure re-arms towards `RetryTarget`, keeping `currentFeature` and the table; a success disarms, empties the target, makes the instance current, and destroys the table exactly when it has the sentinel |
| FeatureProviderDx12.AfterTeardown | OptiScaler/upscalers/FeatureProvider_Dx12.cpp:109-151 | the first call of a switch on an idle entry, stated as facts about the result |
| FeatureProviderDx12.AfterRebuild | OptiScaler/upscalers/FeatureProvider_Dx12.cpp:172-184 | the second call of a switch, stated as facts about the result |
| FeatureProviderDx12.SwitchToInit | OptiScaler/upscalers/FeatureProvider_Dx12.cpp:104-184 | after two calls the entry holds a fresh instance of the chosen backend with the old creation values, ready for `Init` |
| FeatureProviderDx12.AfterInit | OptiScaler/upscalers/FeatureProvider_Dx12.cpp:187-232 | the third call: a complete switch on success; on failure re-armed towards "dlssd", "xess" or "fsr21", "dlssd" exactly when it failed |
| FeatureProviderDx12.FullSwitch | OptiScaler/upscalers/FeatureProvider_Dx12.cpp:84-238 | three calls replace the instance with the backend `GetFeature` chooses, built from the old creation values; on `Init` success it is current and the switch is over, otherwise the handle is re-armed and nothing is current |
| FeatureProviderDx12.FullSwitchReleasesScratchTable | OptiScaler/upscalers/FeatureProvider_Dx12.cpp:128-228 | after a successful switch a scratch table is destroyed, and a caller's table passed to a DLSS target without the sentinel is kept |
| FeatureProviderDx11.Select | OptiScaler/upscalers/FeatureProvider_Dx11.cpp:25-85 | DX11 and 11-on-12 names build their own backend; DLSS/DLSSD only when asked, enabled and found; anything else FSR 2.2 |
| FeatureProviderDx11.GetFeatureSpec | OptiScaler/upscalers/FeatureProvider_Dx11.cpp:19-109 | the result is whether the kept instance loaded; only the instance counter and `Dx11Upscaler` change |
| FeatureProviderDx11.GetFeatureDlssGate | OptiScaler/upscalers/FeatureProvider_Dx11.cpp:63-92 | DLSS (DLSSD) is kept iff asked for, enabled, found and loaded |
| FeatureProviderDx11.GetFeatureRecordsRequestedName | OptiScaler/upscalers/FeatureProvider_Dx11.cpp:93-106 | when the first instance loads, the requested name is recorded ("dlssd" shown as "dlss"), even when FSR 2.2 stood in for it |
| FeatureProviderDx11.GetFeatureFallback | OptiScaler/upscalers/FeatureProvider_Dx11.cpp:87-108 | when the first instance does not load, FSR 2.2 replaces it; success and the record "fsr22" happen exactly when FSR 2.2 loads |
| FeatureProviderDx11.GetFeatureKeeps | OptiScaler/upscalers/FeatureProvider_Dx11.cpp:87-108 | the setting is left alone or set to a name other than "dlssd" |
| FeatureProviderDx11.GetFeature | OptiScaler/upscalers/FeatureProvider_Dx11.cpp:19-109 | the method's effect is `GetFeatureSpec`'s |
| FeatureProviderDx11.Build | OptiScaler/upscalers/FeatureProvider_Dx11.cpp:87-96 | the first instance or FSR 2.2, and the requested name is recorded as soon as the first one loads |
| FeatureProviderDx11.RecordUpscaler | OptiScaler/upscalers/FeatureProvider_Dx11.cpp:100-106 | `Dx11Upscaler` is set with "dlssd" shown as "dlss" |
| FeatureProviderDx11.TeardownSpec | OptiScaler/upscalers/FeatureProvider_Dx11.cpp:128-172 | phase 1 succeeds, keeps the settings and other handles' flags |
| FeatureProviderDx11.RebuildSpec | OptiScaler/upscalers/FeatureProvider_Dx11.cpp:174-187 | phase 2 succeeds exactly when the new instance loaded |
| FeatureProviderDx11.InitSpec | OptiScaler/upscalers/FeatureProvider_Dx11.cpp:189-235 | phase 3 resets the counter and keeps the settings and other handles' flags |
| FeatureProviderDx11.ConcludeSpec | OptiScaler/upscalers/FeatureProvider_Dx11.cpp:200-238 | the end of phase 3 keeps the settings, the instance, the counter and other handles' flags |
| FeatureProviderDx11.ChangeFeatureSpec | OptiScaler/upscalers/FeatureProvider_Dx11.cpp:111-241 | a call changes no setting except `Dx11Upscaler` |
| FeatureProviderDx11.Teardown | OptiScaler/upscalers/FeatureProvider_Dx11.cpp:128-172 | the method's effect is `TeardownSpec`'s |
| FeatureProviderDx11.Rebuild | OptiScaler/upscalers/FeatureProvider_Dx11.cpp:174-187 | the method's effect is `RebuildSpec`'s |
| FeatureProviderDx11.InitPhase | OptiScaler/upscalers/FeatureProvider_Dx11.cpp:189-238 | the method's effect is `InitSpec`'s |
| FeatureProviderDx11.Conclude | OptiScaler/upscalers/FeatureProvider_Dx11.cpp:200-238 | the method's effect is `ConcludeSpec`'s |
| FeatureProviderDx11.ChangeFeature | OptiScaler/upscalers/FeatureProvider_Dx11.cpp:111-241 | the method's effect is `ChangeFeatureSpec`'s |
| FeatureProviderDx11.ChangeFeatureKeepsShape | OptiScaler/upscalers/FeatureProvider_Dx11.cpp:125-235 | on an armed entry a call keeps the shape of a switch |
| FeatureProviderDx11.ChangeFeatureIsLocal | OptiScaler/upscalers/FeatureProvider_Dx11.cpp:111-241 | no other handle's flag changes; only `Dx11Upscaler` may change |
| FeatureProviderDx11.ChangeFeatureTeardown | OptiScaler/upscalers/FeatureProvider_Dx11.cpp:130-154 | the snapshot goes into the caller's table for DLSS and a fresh `OptiDx11` table otherwise; the delay is 1000 ms; the instance is gone |
| FeatureProviderDx11.ChangeFeatureAbandon | OptiScaler/upscalers/FeatureProvider_Dx11.cpp:155-169 | without an instance the switch is abandoned and a held table destroyed |
| FeatureProviderDx11.ChangeFeatureRebuild | OptiScaler/upscalers/FeatureProvider_Dx11.cpp:174-187 | phase 2's instance and result are `GetFeature`'s from the snapshot |
| FeatureProviderDx11.ChangeFeatureInit | OptiScaler/upscalers/FeatureProvider_Dx11.cpp:189-238 | a failed DLSSD is abandoned with result false; any other failure re-arms towards "fsr22"; otherwise a sentinel table is released and the instance, inited or not, becomes current |
| FeatureProviderDx11.ChangeFeatureInitFailed | OptiScaler/upscalers/FeatureProvider_Dx11.cpp:189-238 | phase 3 when `Init` failed or the instance did not load: a DLSSD target is abandoned with result false and the handle disarmed; any other target re-arms towards "fsr22" |
| FeatureProviderDx11.ChangeFeatureInitSucceeded | OptiScaler/upscalers/FeatureProvider_Dx11.cpp:189-238 | phase 3 after a successful `Init`: the handle is disarmed, the instance becomes current and a sentinel-marked table is released |
| FeatureProviderDx11.AfterTeardown | OptiScaler/upscalers/FeatureProvider_Dx11.cpp:128-154 | the first call of a switch, stated as facts |
| FeatureProviderDx11.AfterRebuild | OptiScaler/upscalers/FeatureProvider_Dx11.cpp:174-187 | the second call of a switch, stated as facts |
| FeatureProviderDx11.SwitchToInit | OptiScaler/upscalers/FeatureProvider_Dx11.cpp:125-187 | after two calls a fresh instance built from the old creation values awaits `Init` |
| FeatureProviderDx11.AfterInit | OptiScaler/upscalers/FeatureProvider_Dx11.cpp:189-238 | the third call, stated as facts |
| FeatureProviderDx11.FullSwitch | OptiScaler/upscalers/FeatureProvider_Dx11.cpp:111-241 | three calls rebuild from the old creation values; success completes the switch; a failed DLSSD is abandoned with nothing current; any other failure re-arms towards FSR 2.2 with the failed instance current |
| FeatureProviderVk.Select | OptiScaler/upscalers/FeatureProvider_Vk.cpp:22-67 | Vulkan names build their backend; DLSS/DLSSD only when asked, enabled and found; anything else FSR 2.2 |
| FeatureProviderVk.GetFeatureSpec | OptiScaler/upscalers/FeatureProvider_Vk.cpp:17-91 | the result is whether the kept instance loaded; only the instance counter and `VulkanUpscaler` change |
| FeatureProviderVk.GetFeatureDlssGate | OptiScaler/upscalers/FeatureProvider_Vk.cpp:45-74 | DLSS (DLSSD) is kept iff asked for, enabled, found and loaded |
| FeatureProviderVk.GetFeatureRecordsRequestedName | OptiScaler/upscalers/FeatureProvider_Vk.cpp:75-88 | when the first instance loads, the requested name is recorded ("dlssd" shown as "dlss") |
| FeatureProviderVk.GetFeatureFallback | OptiScaler/upscalers/FeatureProvider_Vk.cpp:69-90 | when the first instance does not load, FSR 2.2 replaces it; success and "fsr22" exactly when FSR 2.2 loads |
| FeatureProviderVk.GetFeatureKeeps | OptiScaler/upscalers/FeatureProvider_Vk.cpp:69-90 | the setting is left alone or set to a name other than "dlssd" |
| FeatureProviderVk.GetFeature | OptiScaler/upscalers/FeatureProvider_Vk.cpp:17-91 | the method's effect is `GetFeatureSpec`'s |
| FeatureProviderVk.Build | OptiScaler/upscalers/FeatureProvider_Vk.cpp:69-78 | the first instance or FSR 2.2, the requested name recorded once the first loads |
| FeatureProviderVk.RecordUpscaler | OptiScaler/upscalers/FeatureProvider_Vk.cpp:82-88 | `VulkanUpscaler` is set with "dlssd" shown as "dlss" |
| FeatureProviderVk.TeardownSpec | OptiScaler/upscalers/FeatureProvider_Vk.cpp:110-154 | phase 1 succeeds, keeps the settings and other handles' flags |
| FeatureProviderVk.RebuildSpec | OptiScaler/upscalers/FeatureProvider_Vk.cpp:156-169 | phase 2 succeeds exactly when the new instance loaded |
| FeatureProviderVk.InitSpec | OptiScaler/upscalers/FeatureProvider_Vk.cpp:171-223 | phase 3 resets the counter and keeps the settings and other handles' flags |
| FeatureProviderVk.ChangeFeatureSpec | OptiScaler/upscalers/FeatureProvider_Vk.cpp:93-229 | a call changes no setting except `VulkanUpscaler` |
| FeatureProviderVk.Teardown | OptiScaler/upscalers/FeatureProvider_Vk.cpp:110-154 | the method's effect is `TeardownSpec`'s |
| FeatureProviderVk.Rebuild | OptiScaler/upscalers/FeatureProvider_Vk.cpp:156-169 | the method's effect is `RebuildSpec`'s |
| FeatureProviderVk.InitPhase | OptiScaler/upscalers/FeatureProvider_Vk.cpp:171-226 | the method's effect is `InitSpec`'s |
| FeatureProviderVk.ChangeFeature | OptiScaler/upscalers/FeatureProvider_Vk.cpp:93-229 | the method's effect is `ChangeFeatureSpec`'s |
| FeatureProviderVk.ChangeFeatureKeepsShape | OptiScaler/upscalers/FeatureProvider_Vk.cpp:105-223 | on an armed entry a call keeps the shape of a switch |
| FeatureProviderVk.ChangeFeatureIsLocal | OptiScaler/upscalers/FeatureProvider_Vk.cpp:93-229 | no other handle's flag changes; only `VulkanUpscaler` may change |
| FeatureProviderVk.ChangeFeatureTeardown | OptiScaler/upscalers/FeatureProvider_Vk.cpp:112-136 | the snapshot goes into the caller's table for DLSS and a fresh `OptiVk` table otherwise; the delay is 1000 ms; the instance is gone |
| FeatureProviderVk.ChangeFeatureAbandon | OptiScaler/upscalers/FeatureProvider_Vk.cpp:137-151 | without an instance the switch is abandoned and a held table destroyed |
| FeatureProviderVk.ChangeFeatureRebuild | OptiScaler/upscalers/FeatureProvider_Vk.cpp:156-169 | phase 2's instance and result are `GetFeature`'s from the snapshot |
| FeatureProviderVk.ChangeFeatureInit | OptiScaler/upscalers/FeatureProvider_Vk.cpp:171-226 | a failure or unloaded module re-arms towards `RetryTarget`, keeping `currentFeature` and the table; a success disarms, makes the instance current and releases a sentinel table |
| FeatureProviderVk.AfterTeardown | OptiScaler/upscalers/FeatureProvider_Vk.cpp:110-136 | the first call of a switch, stated as facts |
| FeatureProviderVk.AfterRebuild | OptiScaler/upscalers/FeatureProvider_Vk.cpp:156-169 | the second call of a switch, stated as facts |
| FeatureProviderVk.SwitchToInit | OptiScaler/upscalers/FeatureProvider_Vk.cpp:105-169 | after two calls a fresh instance built from the old creation values awaits `Init` |
| FeatureProviderVk.FullSwitch | OptiScaler/upscalers/FeatureProvider_Vk.cpp:93-229 | three calls rebuild from the old creation values; success completes the switch; otherwise the handle is re-armed towards a fallback that is "dlssd" exactly when DLSSD failed, with nothing current |
| NvngxDlssDx12.GetUpscalerBackend | OptiScaler/inputs/NVNGX_DLSS_Dx12.cpp:581-592 | a configured `Dx12Upscaler` wins; otherwise "dlss" exactly when DLSS is enabled and the native runtime is inited, else "xess" |
| NvngxDlssDx12.RequestedName | OptiScaler/inputs/NVNGX_DLSS_Dx12.cpp:660-671 | any feature other than SuperSampling asks for "dlssd" |
| NvngxDlssDx12.RegisterSpec | OptiScaler/inputs/NVNGX_DLSS_Dx12.cpp:657-686 | a fresh handle id is taken and the id counter moves past it; the new entry holds a new, un-inited instance for that handle, with counter 0 and no table; only that entry and the instance counter are added |
| NvngxDlssDx12.FinishCreateSpec | OptiScaler/inputs/NVNGX_DLSS_Dx12.cpp:697-743 | the handle is written; the call fails exactly without a device, and then the entry is erased and the world is untouched; on success the entry holds the instance with its `Init` outcome: a successful `Init` makes it current and resets `evalCounter`, a failed one arms the handle towards "fsr21" and keeps the current feature; other entries and flags are untouched, and `contextRendering` ends lowered when the signatures are restored |
| NvngxDlssDx12.InitEntrySpec | OptiScaler/inputs/NVNGX_DLSS_Dx12.cpp:716-732 | the entry holds the instance with its `Init` outcome; a successful `Init` makes it current and resets `evalCounter`; a failed one sets `newBackend` to "fsr21", arms the handle and keeps the current feature; other handles' flags are untouched |
| NvngxDlssDx12.TryCreateSpec | OptiScaler/inputs/NVNGX_DLSS_Dx12.cpp:646-744 | a fresh handle id is always consumed and written, and the call fails exactly when no device can be found |
| NvngxDlssDx12.TryCreateSteps | OptiScaler/inputs/NVNGX_DLSS_Dx12.cpp:646-744 | create is the registration of the requested backend followed by the finishing steps, with the signatures restored exactly when either restore setting is on |
| NvngxDlssDx12.TryCreateFails | OptiScaler/inputs/NVNGX_DLSS_Dx12.cpp:697-714 | without a device the call fails and the new entry is erased again: the registry holds what it held before |
| NvngxDlssDx12.TryCreateInits | OptiScaler/inputs/NVNGX_DLSS_Dx12.cpp:716-733 | with a device the call succeeds and adds exactly the new handle, holding the new instance; a successful `Init` makes it current and resets `evalCounter`; a failed one sets `newBackend` to "fsr21", arms the handle and keeps the current feature |
| NvngxDlssDx12.TryCreateIsLocal | OptiScaler/inputs/NVNGX_DLSS_Dx12.cpp:672-740 | no other entry and no other handle's flag changes; `contextRendering` ends lowered when either restore setting raised it, and is otherwise kept |
| NvngxDlssDx12.CreateFeatureSpec | OptiScaler/inputs/NVNGX_DLSS_Dx12.cpp:751-814 | a null command list or out-handle fails with no effect; a kind other than SuperSampling and RayReconstruction gets no handle and changes nothing, its result being the native runtime's answer when DLSS is ready and FeatureNotSupported otherwise; for the two OptiScaler kinds the next handle id is returned, and the call succeeds exactly when a device exists, with the entry registered |
| NvngxDlssDx12.ReleaseFeatureSpec | OptiScaler/inputs/NVNGX_DLSS_Dx12.cpp:816-889 | a null handle succeeds with no effect; a native handle is forwarded, or fails with FeatureNotFound, without touching the state; a mod frame-generation handle gets the native answer with no effect; an OptiScaler handle succeeds, and one that is unknown or whose entry has no instance leaves the state as it was; only the registry map and `currentFeature` ever change |
| NvngxDlssDx12.SwitchEntrySpec | OptiScaler/inputs/NVNGX_DLSS_Dx12.cpp:994-1006 | a switch step succeeds, resets `evalCounter` and keeps the entry |
| NvngxDlssDx12.RunEntrySpec | OptiScaler/inputs/NVNGX_DLSS_Dx12.cpp:1008-1061 | an instance that failed `Init`, unless "fsr21" is configured, arms the handle towards "fsr21" and succeeds without evaluating, leaving the registry as it was; otherwise the instance becomes current and the result is Success exactly when `Evaluate` succeeds; the settings and other handles' flags are kept |
| NvngxDlssDx12.RunSpec | OptiScaler/inputs/NVNGX_DLSS_Dx12.cpp:1017-1061 | the instance becomes current and the result is Success exactly when `Evaluate` succeeds; a switch request from the instance arms the handle; the registry changes only in `contextRendering` and the settings not at all |
| NvngxDlssDx12.TryEvaluateSpec | OptiScaler/inputs/NVNGX_DLSS_Dx12.cpp:955-961 | an unknown handle fails with FeatureNotFound and changes nothing; the other branches are stated by `EvaluateSkipsFirstFrames`, `EvaluateSwitches`, `EvaluateArmsOnResize`, `EvaluateFallsBackWhenNotInited` and `EvaluateRuns` |
| NvngxDlssDx12.IsFsr31OrLater | OptiScaler/inputs/NVNGX_DLSS_Dx12.cpp:986 | true exactly for an instance whose name starts with "FSR" and whose version is 3.1 or later |
| NvngxDlssDx12.DispatchSpec | OptiScaler/inputs/NVNGX_DLSS_Dx12.cpp:984-1061 | an armed handle, or a pre-3.1 FSR instance whose output size changed, gives Success with `evalCounter` reset and `contextRendering` lowered; any other handle leaves the registry as it was except `contextRendering`, the settings as they were, and the caller's table in place |
| NvngxDlssDx12.EvaluateSkipsFirstFrames | OptiScaler/inputs/NVNGX_DLSS_Dx12.cpp:974-978 | while the frame count is below `SkipFirstFrames` the call succeeds, counts the frame and changes nothing else |
| NvngxDlssDx12.EvaluateSwitches | OptiScaler/inputs/NVNGX_DLSS_Dx12.cpp:993-1006 | an armed handle, or a pre-3.1 FSR instance whose output size changed, takes one `ChangeFeature` step instead of evaluating: Success, `evalCounter` reset, `contextRendering` lowered, and the entry and state the switch leaves |
| NvngxDlssDx12.EvaluateArmsOnResize | OptiScaler/inputs/NVNGX_DLSS_Dx12.cpp:984-1006 | a resize of a pre-3.1 FSR instance on an idle handle tears the instance down into a snapshot of its creation values and leaves the handle armed for the next frame |
| NvngxDlssDx12.EvaluateFallsBackWhenNotInited | OptiScaler/inputs/NVNGX_DLSS_Dx12.cpp:1008-1015 | an instance that failed `Init`, unless "fsr21" is configured, sets `newBackend` to "fsr21", arms the handle and succeeds without evaluating; the registry only counts the frame |
| NvngxDlssDx12.EvaluateRuns | OptiScaler/inputs/NVNGX_DLSS_Dx12.cpp:1017-1061 | otherwise the instance becomes current and is evaluated: Success exactly when `Evaluate` succeeds, the handle armed exactly when the instance asked for it, the entries untouched and the frame counted |
| NvngxDlssDx12.RunSpecKeepsOthers | OptiScaler/inputs/NVNGX_DLSS_Dx12.cpp:1017-1061 | a run never arms or disarms another handle |
| NvngxDlssDx12.EvaluateFeatureSpec | OptiScaler/inputs/NVNGX_DLSS_Dx12.cpp:1074-1084 | a null handle gives FeatureNotFound and a null command list Fail, both without effect; a native handle is forwarded, or fails with FeatureNotFound, without effect; a mod frame-generation handle gets the native answer with no effect; any other handle takes `TryEvaluateOptiFeature`'s path |
| NvngxDlssDx12.NativeInit | OptiScaler/inputs/NVNGX_DLSS_Dx12.cpp:167-186 | nothing happens while `_skipInit` is set or DLSS is disabled; otherwise at most one native init call, which may mark the runtime inited |
| NvngxDlssDx12.InitExtSpec | OptiScaler/inputs/NVNGX_DLSS_Dx12.cpp:147-231 | always succeeds, records the application id and leaves the layer inited; `_skipInit` is not touched |
| NvngxDlssDx12.ScopedInitExtSpec | OptiScaler/inputs/NVNGX_DLSS_Dx12.cpp:35-47 | `_skipInit` is restored after the nested call |
| NvngxDlssDx12.InitSpec | OptiScaler/inputs/NVNGX_DLSS_Dx12.cpp:233-282 | always succeeds and leaves the layer inited |
| NvngxDlssDx12.InitProjectIdSpec | OptiScaler/inputs/NVNGX_DLSS_Dx12.cpp:284-335 | always succeeds, records the project id and leaves the layer inited |
| NvngxDlssDx12.Registry.constructor | OptiScaler/inputs/NVNGX_DLSS_Dx12.cpp:25-33 | an empty registry with the initial globals |
| NvngxDlssDx12.Registry.Register | OptiScaler/inputs/NVNGX_DLSS_Dx12.cpp:657-686 | the method's effect is `RegisterSpec`'s |
| NvngxDlssDx12.Registry.FinishCreate | OptiScaler/inputs/NVNGX_DLSS_Dx12.cpp:697-743 | the method's effect is `FinishCreateSpec`'s |
| NvngxDlssDx12.Registry.InitEntry | OptiScaler/inputs/NVNGX_DLSS_Dx12.cpp:716-732 | the method's effect is `InitEntrySpec`'s |
| NvngxDlssDx12.Registry.RequestName | OptiScaler/inputs/NVNGX_DLSS_Dx12.cpp:660-671 | the method returns `RequestedName` |
| NvngxDlssDx12.Registry.TryCreateOptiFeature | OptiScaler/inputs/NVNGX_DLSS_Dx12.cpp:646-744 | the method's effect is `TryCreateSpec`'s, whose outcomes `TryCreateFails`, `TryCreateInits` and `TryCreateIsLocal` state |
| NvngxDlssDx12.Registry.CreateFeature | OptiScaler/inputs/NVNGX_DLSS_Dx12.cpp:751-814 | the method's effect is `CreateFeatureSpec`'s and the registry stays valid |
| NvngxDlssDx12.Registry.ReleaseFeature | OptiScaler/inputs/NVNGX_DLSS_Dx12.cpp:816-889 | the method's effect is `ReleaseFeatureSpec`'s and the registry stays valid |
| NvngxDlssDx12.Registry.SwitchEntry | OptiScaler/inputs/NVNGX_DLSS_Dx12.cpp:994-1006 | the method's effect is `SwitchEntrySpec`'s |
| NvngxDlssDx12.Registry.RunEntry | OptiScaler/inputs/NVNGX_DLSS_Dx12.cpp:1008-1061 | the method's effect is `RunEntrySpec`'s |
| NvngxDlssDx12.Registry.Run | OptiScaler/inputs/NVNGX_DLSS_Dx12.cpp:1017-1061 | the method's effect is `RunSpec`'s |
| NvngxDlssDx12.Registry.TryEvaluateOptiFeature | OptiScaler/inputs/NVNGX_DLSS_Dx12.cpp:945-1062 | the method's effect is `TryEvaluateSpec`'s, whose branches the `Evaluate…` lemmas state |
| NvngxDlssDx12.Registry.EvaluateFeature | OptiScaler/inputs/NVNGX_DLSS_Dx12.cpp:1068-1117 | the method's effect is `EvaluateFeatureSpec`'s and the registry stays valid |
| NvngxDlssDx12.Registry.CallNativeInit | OptiScaler/inputs/NVNGX_DLSS_Dx12.cpp:167-186 | the method's effect is `NativeInit`'s |
| NvngxDlssDx12.Registry.InitExt | OptiScaler/inputs/NVNGX_DLSS_Dx12.cpp:147-231 | the method's effect is `InitExtSpec`'s |
| NvngxDlssDx12.Registry.ScopedInitExt | OptiScaler/inputs/NVNGX_DLSS_Dx12.cpp:35-47 | the method's effect is `ScopedInitExtSpec`'s |
| NvngxDlssDx12.Registry.Init | OptiScaler/inputs/NVNGX_DLSS_Dx12.cpp:233-282 | the method's effect is `InitSpec`'s |
| NvngxDlssDx12.Registry.InitProjectId | OptiScaler/inputs/NVNGX_DLSS_Dx12.cpp:284-335 | the method's effect is `InitProjectIdSpec`'s |
| NvngxDlssDx12.CreatePreservesInv | OptiScaler/inputs/NVNGX_DLSS_Dx12.cpp:751-814 | create keeps every handle in the OptiScaler range below the next id, and every entry consistent |
| NvngxDlssDx12.TryCreatePreservesInv | OptiScaler/inputs/NVNGX_DLSS_Dx12.cpp:646-744 | the OptiScaler create path keeps the registry invariant |
| NvngxDlssDx12.ReleasePreservesInv | OptiScaler/inputs/NVNGX_DLSS_Dx12.cpp:816-889 | release keeps the registry invariant |
| NvngxDlssDx12.SwitchEntryPreservesInv | OptiScaler/inputs/NVNGX_DLSS_Dx12.cpp:994-1006 | a switch step keeps the registry invariant |
| NvngxDlssDx12.RunEntryPreservesInv | OptiScaler/inputs/NVNGX_DLSS_Dx12.cpp:1008-1061 | the run branch keeps the registry invariant |
| NvngxDlssDx12.CounterPreservesInv | OptiScaler/inputs/NVNGX_DLSS_Dx12.cpp:975 | changing `evalCounter` keeps the registry invariant |
| NvngxDlssDx12.ArmPreservesInv | OptiScaler/inputs/NVNGX_DLSS_Dx12.cpp:991 | arming a handle keeps the registry invariant |
| NvngxDlssDx12.TryEvaluatePreservesInv | OptiScaler/inputs/NVNGX_DLSS_Dx12.cpp:945-1062 | `TryEvaluateOptiFeature` keeps the registry invariant |
| NvngxDlssDx12.DispatchPreservesInv | OptiScaler/inputs/NVNGX_DLSS_Dx12.cpp:984-1061 | the post-skip part of evaluate keeps the registry invariant |
| NvngxDlssDx12.EvaluatePreservesInv | OptiScaler/inputs/NVNGX_DLSS_Dx12.cpp:1068-1117 | evaluate keeps the registry invariant |
| NvngxDlssDx12.CreateWithoutDeviceFails | OptiScaler/inputs/NVNGX_DLSS_Dx12.cpp:697-714 | without a device the call fails after writing the handle, the id is consumed and the registry is as before |
| NvngxDlssDx12.ReleaseDropsOnlyItsEntry | OptiScaler/inputs/NVNGX_DLSS_Dx12.cpp:868-888 | releasing an OptiScaler handle with an instance succeeds, erases exactly that entry, and nulls `currentFeature` iff it was that instance |
| NvngxDlssDx12.NativeHandleLeavesRegistry | OptiScaler/inputs/NVNGX_DLSS_Dx12.cpp:838-860 | releasing a native handle never touches the state, and succeeds only when forwarded |
| NvngxDlssDx12.InitCallsNativeOnce | OptiScaler/inputs/NVNGX_DLSS_Dx12.cpp:233-335 | `Init` and `Init_ProjectID` make at most one native init call, none while `_skipInit` is set |
| NvngxDlssDx12.ScopedInitCallsNoNative | OptiScaler/inputs/NVNGX_DLSS_Dx12.cpp:35-186 | the `Init_Ext` nested under `ScopedInit` makes no native call |
| NvngxDlssDx12.InitProjectIdUsesFixedAppId | OptiScaler/inputs/NVNGX_DLSS_Dx12.cpp:326-333 | the first `Init_ProjectID` initialises with application id 0x1337 |
| FfxApiProxy.EffectOf | OptiScaler/proxies/FfxApi_Proxy.h:103-126 | each known struct kind has an effect id inside the effect mask; Unknown has none |
| FfxApiProxy.GetType | OptiScaler/proxies/FfxApi_Proxy.h:103-126 | a known result is the kind whose effect id equals the masked type |
| FfxApiProxy.GetTypeRoundTrip | OptiScaler/proxies/FfxApi_Proxy.h:103-126 | any type built from a kind's effect id and low bits maps back to that kind |
| FfxApiProxy.GetTypeUnknown | OptiScaler/proxies/FfxApi_Proxy.h:123-124 | Unknown exactly when no kind has the masked type as its effect id |
| FfxApiProxy.GetIndirectType | OptiScaler/proxies/FfxApi_Proxy.h:130-141 | version queries are typed by the next header, any other query by its own |
| FfxApiProxy.VersionQueryRoutedByNextHeader | OptiScaler/proxies/FfxApi_Proxy.h:128-141 | a version query's own type is General, yet it is routed as the frame-generation struct behind it |
| FfxApiProxy.ReturnCodeToString | OptiScaler/proxies/FfxApi_Proxy.h:966-988 | any code past the last listed one reads "Unknown" |
| FfxApiProxy.SetSkip | OptiScaler/proxies/FfxApi_Proxy.h:42-45 | one skip flag is set and the other flags, the dll, the version and the functions are kept |
| FfxApiProxy.RouteSpec | OptiScaler/proxies/FfxApi_Proxy.h:605-826 | a frame-generation call goes to the FG module iff loaded and any other to the upscaling module iff loaded; otherwise to main iff it is loaded and not flagged for that kind; the reply is that module's, or NO_PROVIDER; the flags are restored |
| FfxApiProxy.ReentrantCallRefused | OptiScaler/proxies/FfxApi_Proxy.h:624-641 | during the forward to main, the same call for the same kind is refused with NO_PROVIDER |
| FfxApiProxy.OtherCallsNotRefused | OptiScaler/proxies/FfxApi_Proxy.h:624-641 | during the forward to main, a different call or kind still reaches main |
| FfxApiProxy.CreateContextSpec | OptiScaler/proxies/FfxApi_Proxy.h:605-611 | the context's type is recorded before routing |
| FfxApiProxy.MappedModule | OptiScaler/proxies/FfxApi_Proxy.h:663-686 | General maps to main, Upscaling to upscaling, FG and DX12 swapchain to the FG module |
| FfxApiProxy.TryNext | OptiScaler/proxies/FfxApi_Proxy.h:688-724 | after an OK nothing more is tried; otherwise an eligible module is tried and its reply is the code |
| FfxApiProxy.DestroyChain | OptiScaler/proxies/FfxApi_Proxy.h:647-730 | whatever the modules reply, the chain leaves the proxy with the context's mapping erased and every module untouched |
| FfxApiProxy.DestroyContextSpec | OptiScaler/proxies/FfxApi_Proxy.h:647-734 | destroy erases the context's mapping and changes nothing else |
| FfxApiProxy.TryNextSound | OptiScaler/proxies/FfxApi_Proxy.h:688-730 | each step of the chain keeps it sound |
| FfxApiProxy.DestroyChainSound | OptiScaler/proxies/FfxApi_Proxy.h:647-730 | the chain is sound: OK iff the last reply was OK, earlier replies failed, only loaded modules were tried, and main bypasses the guard only first, for a General context |
| FfxApiProxy.DestroyContextOutcome | OptiScaler/proxies/FfxApi_Proxy.h:647-734 | destroy returns OK exactly when some module returned OK, and NO_PROVIDER otherwise |
| FfxApiProxy.UpToFirstOk | OptiScaler/proxies/FfxApi_Proxy.h:688-730 | the tries up to and including the first OK: a prefix with no OK before its last element, and all the tries when none answers OK |
| FfxApiProxy.UpToFirstOkSnoc | OptiScaler/proxies/FfxApi_Proxy.h:688-730 | a further try is taken exactly while no earlier try answered OK |
| FfxApiProxy.TryNextFollows | OptiScaler/proxies/FfxApi_Proxy.h:688-724 | each step of the chain keeps it equal to the reference on the modules passed so far |
| FfxApiProxy.ChainTailFollows | OptiScaler/proxies/FfxApi_Proxy.h:694-730 | the upscaling, FG and main steps, in that order, keep the chain equal to the reference |
| FfxApiProxy.DestroyChainComplete | OptiScaler/proxies/FfxApi_Proxy.h:647-730 | the chain asks exactly the candidate modules (mapped, upscaling, FG, then main while the guard is down, each only when loaded), in that order, up to the first OK, and answers OK exactly when one of them does |
| FfxApiProxy.DestroyContextNoProvider | OptiScaler/proxies/FfxApi_Proxy.h:647-734 | NO_PROVIDER exactly when no candidate answered OK, and then every candidate was asked in order and failed; OK means the last module asked answered OK |
| FfxApiProxy.DestroyThroughMainGuarded | OptiScaler/proxies/FfxApi_Proxy.h:718-724 | while `_skipDestroyCalls` is raised, the chain's main fallback is not tried |
| FfxApiProxy.GeneralContextBypassesGuard | OptiScaler/proxies/FfxApi_Proxy.h:665-669 | a General context goes to a loaded main first, whatever the guard says |
| FfxApiProxy.LoadModule | OptiScaler/proxies/FfxApi_Proxy.h:151-218 | the dll is set iff it was, was given or was found; the functions are resolved once, when a loaded dll has no `Configure` yet |
| FfxApiProxy.InitSubmoduleSpec | OptiScaler/proxies/FfxApi_Proxy.h:260-357 | an already-loaded module returns true unchanged; otherwise the result is whether `CreateContext` resolved, and a failed load nulls the dll |
| FfxApiProxy.InitFfxDx12Outcome | OptiScaler/proxies/FfxApi_Proxy.h:143-258 | `InitFfxDx12` succeeds iff any of main, upscaling and FG resolved `CreateContext`; on failure main's dll is null |
| FfxApiProxy.InitFfxDx12Idempotent | OptiScaler/proxies/FfxApi_Proxy.h:145-147 | once main is loaded with `CreateContext`, calling again returns true and changes nothing |
| FfxApiProxy.InitFfxDx12Spec | OptiScaler/proxies/FfxApi_Proxy.h:143-258 | the result is whether any of main, upscaling and FG can create contexts; the context map and the destroy guard are kept |
| FfxApiProxy.QueryVersion | OptiScaler/proxies/FfxApi_Proxy.h:457-495 | a version query touches only the module's version; nothing changes unless both calls answer OK; the version changes only when the name holds a digit, since the proxy's `parse_version` is the as-written one |
| FfxApiProxy.VersionDx12Spec | OptiScaler/proxies/FfxApi_Proxy.h:455-505 | the result is main's cached version and only versions change; main's query uses the as-written parse, so a partial match is cached too |
| FfxApiProxy.VersionSrSpec | OptiScaler/proxies/FfxApi_Proxy.h:507-554 | only versions change; with a queryable upscaling module the result is its version and nothing else changes, a cached non-zero version being returned without a query; otherwise the result is main's version |
| FfxApiProxy.VersionFgSpec | OptiScaler/proxies/FfxApi_Proxy.h:556-603 | only versions change; with a queryable FG module the result is its version and nothing else changes, a cached non-zero version being returned without a query; otherwise the result is main's version |
| FfxApiProxy.VersionDx12Caches | OptiScaler/proxies/FfxApi_Proxy.h:457-504 | a cached non-zero major version is returned without any query |
| FfxApiProxy.VersionDx12Idempotent | OptiScaler/proxies/FfxApi_Proxy.h:455-505 | asking again returns the same version and state |
| FfxApiProxy.VersionFromMainQuery | OptiScaler/proxies/FfxApi_Proxy.h:465-486 | a successful main query whose first name carries a version sets that version |
| FfxApiProxy.VersionDx12TakesPartialMatch | OptiScaler/proxies/FfxApi_Proxy.h:465-486 | main answering "v3.1" on an empty cache caches and returns 1.1.0, which that name does not hold, and the SR and FG modules are not asked |
| FfxApiProxy.VersionFallbackOrder | OptiScaler/proxies/FfxApi_Proxy.h:498-502 | when main has no version, the upscaling module's is used before the FG module's |
| FfxApiProxy.Proxy.constructor | OptiScaler/proxies/FfxApi_Proxy.h:57-67 | every module is empty, no mapping, no guard raised |
| FfxApiProxy.Proxy.Route | OptiScaler/proxies/FfxApi_Proxy.h:613-644 | the method's effect is `RouteSpec`'s, and during the main forward the flag for that kind is raised |
| FfxApiProxy.Proxy.CreateContext | OptiScaler/proxies/FfxApi_Proxy.h:605-645 | the method's effect is `CreateContextSpec`'s |
| FfxApiProxy.Proxy.Configure | OptiScaler/proxies/FfxApi_Proxy.h:736-765 | the method's effect is `RouteSpec`'s for the configure call |
| FfxApiProxy.Proxy.Query | OptiScaler/proxies/FfxApi_Proxy.h:767-795 | the method's effect is `RouteSpec`'s for the query call, typed by `GetIndirectType` |
| FfxApiProxy.Proxy.Dispatch | OptiScaler/proxies/FfxApi_Proxy.h:797-826 | the method's effect is `RouteSpec`'s for the dispatch call |
| FfxApiProxy.Proxy.DestroyContext | OptiScaler/proxies/FfxApi_Proxy.h:647-734 | the method's effect is `DestroyContextSpec`'s |
| FfxApiProxy.Proxy.DestroyWithMapped | OptiScaler/proxies/FfxApi_Proxy.h:649-686 | the mapped module is tried iff loaded; otherwise the code stays ERROR |
| FfxApiProxy.Proxy.InitUpscaling | OptiScaler/proxies/FfxApi_Proxy.h:260-357 | the method's effect is `InitSubmoduleSpec`'s on the upscaling module |
| FfxApiProxy.Proxy.InitFg | OptiScaler/proxies/FfxApi_Proxy.h:359-453 | the method's effect is `InitSubmoduleSpec`'s on the FG module |
| FfxApiProxy.Proxy.InitFfxDx12 | OptiScaler/proxies/FfxApi_Proxy.h:143-258 | the method's effect is `InitFfxDx12Spec`'s |
| FfxApiProxy.Proxy.VersionDx12 | OptiScaler/proxies/FfxApi_Proxy.h:455-505 | the method's effect is `VersionDx12Spec`'s |
| FfxApiProxy.Proxy.VersionDx12Sr | OptiScaler/proxies/FfxApi_Proxy.h:507-554 | the method's effect is `VersionSrSpec`'s |
| FfxApiProxy.Proxy.VersionDx12Fg | OptiScaler/proxies/FfxApi_Proxy.h:556-603 | the method's effect is `VersionFgSpec`'s |
| FfxApiProxy.RoutingKeepsAtRest | OptiScaler/proxies/FfxApi_Proxy.h:42-67 | after any routed call, destroy, init or version query every skip flag and the destroy guard are lowered again |
| Fsr31Feature.ResolveTypelessFormat | OptiScaler/upscalers/fsr31/FSR31Feature.h:49-100 | the result is never typeless; a typeless format becomes the typed format of the same layout; any other format is kept |
| Fsr31Feature.ResolveTypelessFormatIdempotent | OptiScaler/upscalers/fsr31/FSR31Feature.h:49-100 | resolving twice is resolving once |
| Fsr31Feature.ResolveTypelessFormatInjective | OptiScaler/upscalers/fsr31/FSR31Feature.h:49-100 | distinct typeless formats resolve to distinct formats |
| Fsr31Feature.DigitRun | OptiScaler/upscalers/fsr31/FSR31Feature.h:40 | `%u`'s digit run ends at a non-digit or at the end of the text |
| Fsr31Feature.DigitRunIsDigits | OptiScaler/upscalers/fsr31/FSR31Feature.h:40 | every character of the run is a digit, so the run is the longest digit prefix |
| Fsr31Feature.SpaceRun | OptiScaler/upscalers/fsr31/FSR31Feature.h:40 | the white space `%u` skips ends at a non-blank or at the end of the text |
| Fsr31Feature.WrapNat | OptiScaler/upscalers/fsr31/FSR31Feature.h:40 | the stored value is below 2^32, and a value already in range is kept |
| Fsr31Feature.WrapNatIsModulo | OptiScaler/upscalers/fsr31/FSR31Feature.h:40 | storing a natural number into `unsigned int` reduces it modulo 2^32 |
| Fsr31Feature.Wrap32 | OptiScaler/upscalers/fsr31/FSR31Feature.h:40 | the stored value is below 2^32, and a value already in range is kept |
| Fsr31Feature.Wrap32IsModulo | OptiScaler/upscalers/fsr31/FSR31Feature.h:40 | storing any integer, negative ones included, into `unsigned int` reduces it modulo 2^32 |
| Fsr31Feature.ScanDigits | OptiScaler/upscalers/fsr31/FSR31Feature.h:40 | a digit run converts, consuming at least one character |
| Fsr31Feature.ScanSigned | OptiScaler/upscalers/fsr31/FSR31Feature.h:40 | an optional sign and a digit run convert to a value below 2^32 |
| Fsr31Feature.ScanUint | OptiScaler/upscalers/fsr31/FSR31Feature.h:40 | a conversion consumes at least one character and no more than there are, and stores a value below 2^32 |
| Fsr31Feature.ScanUintDigitsFirst | OptiScaler/upscalers/fsr31/FSR31Feature.h:40 | text that starts with a digit converts its whole leading digit run, reduced modulo 2^32 |
| Fsr31Feature.ScanSignedDigitsFirst | OptiScaler/upscalers/fsr31/FSR31Feature.h:40 | after the blanks, a leading digit run converts to its value modulo 2^32 |
| Fsr31Feature.ScanUintRejects | OptiScaler/upscalers/fsr31/FSR31Feature.h:40 | text that starts with neither white space, a sign nor a digit converts nothing |
| Fsr31Feature.ScanUintSkipsSpace | OptiScaler/upscalers/fsr31/FSR31Feature.h:40 | a leading blank is skipped: the conversion succeeds exactly when it does without the blank, with the same value and one character more |
| Fsr31Feature.ScanUintNegates | OptiScaler/upscalers/fsr31/FSR31Feature.h:40 | a minus sign before digits converts to the negated value modulo 2^32 |
| Fsr31Feature.ScanUintWrapsNegative | OptiScaler/upscalers/fsr31/FSR31Feature.h:40 | "-1" converts to 4294967295 |
| Fsr31Feature.ScanUintOneDigit | OptiScaler/upscalers/fsr31/FSR31Feature.h:40 | a single digit, alone or after one blank, converts to its value |
| Fsr31Feature.ScanFields | OptiScaler/upscalers/fsr31/FSR31Feature.h:40 | at most the requested number of fields convert |
| Fsr31Feature.ScanTriple | OptiScaler/upscalers/fsr31/FSR31Feature.h:40 | `"%u.%u.%u"` converts at most three fields |
| Fsr31Feature.ScanFieldsDotAfter | OptiScaler/upscalers/fsr31/FSR31Feature.h:40 | a conversion followed by '.' gives its value, and the scan goes on after the dot |
| Fsr31Feature.ScanFieldsOneDigitDot | OptiScaler/upscalers/fsr31/FSR31Feature.h:40 | a digit, alone or after one blank, followed by '.' gives its value, and the scan goes on after the dot |
| Fsr31Feature.ScanFieldsOneDigitLast | OptiScaler/upscalers/fsr31/FSR31Feature.h:40 | a final digit, alone or after one blank, is the only field |
| Fsr31Feature.ScanFieldsBlankPair | OptiScaler/upscalers/fsr31/FSR31Feature.h:40 | " d. d" converts both digits |
| Fsr31Feature.ScanFieldsDigitPair | OptiScaler/upscalers/fsr31/FSR31Feature.h:40 | "d.d" converts both digits and stops at the end of the text |
| Fsr31Feature.ScanTripleSpacedDigits | OptiScaler/upscalers/fsr31/FSR31Feature.h:40 | "d. d. d", such as "3. 1. 2", converts all three fields, the blanks after the dots being skipped |
| Fsr31Feature.ScanTriplesOfV31 | OptiScaler/upscalers/fsr31/FSR31Feature.h:36-44 | in "v3.1" the scan at "3.1" converts two fields and the scan at the final "1" one |
| Fsr31Feature.NoTripleInV31 | OptiScaler/upscalers/fsr31/FSR31Feature.h:36-44 | "v3.1" holds no complete triple at any position |
| Fsr31Feature.ParseVersionAsWrittenOverwritesOnFailure | OptiScaler/upscalers/fsr31/FSR31Feature.h:31-47 | "v3.1" holds no complete triple, yet the code as written turns 3.1.2 into 1.1.2 |
| Fsr31Feature.ParseFromAsWrittenSkipsNonDigits | OptiScaler/upscalers/fsr31/FSR31Feature.h:36-44 | the scan as written passes over non-digits without effect |
| Fsr31Feature.ParseFromAsWrittenNeedsDigit | OptiScaler/upscalers/fsr31/FSR31Feature.h:36-46 | the scan as written changes the version only when a digit lies ahead |
| Fsr31Feature.ParseVersionAsWrittenNeedsDigit | OptiScaler/upscalers/fsr31/FSR31Feature.h:31-47 | the parse as written changes the version only when the text holds a digit |
| Fsr31Feature.ParseFromNeedsTriple | OptiScaler/upscalers/fsr31/FSR31Feature.h:36-46 | the corrected scan changes the version only when a complete triple lies ahead |
| Fsr31Feature.ParseVersionIntendedNeedsTriple | OptiScaler/upscalers/fsr31/FSR31Feature.h:31-47 | the corrected parse changes the version only when the text holds a complete triple |
| Fsr31Feature.ParseFromNoTriple | OptiScaler/upscalers/fsr31/FSR31Feature.h:36-46 | with no complete triple ahead, the corrected scan keeps the version |
| Fsr31Feature.ParseFromFirstTriple | OptiScaler/upscalers/fsr31/FSR31Feature.h:36-43 | the corrected scan takes the first complete triple ahead |
| Fsr31Feature.ParseVersionOutcome | OptiScaler/upscalers/fsr31/FSR31Feature.h:31-47 | corrected parse: unchanged without a complete triple, else the first complete triple |
| Fsr31Feature.ParseVersionKeepsDefaultOnFailure | OptiScaler/upscalers/fsr31/FSR31Feature.h:31-47 | the corrected parse keeps 3.1.2 on "v3.1" |
| Fsr31Feature.Decimal | OptiScaler/upscalers/fsr31/FSR31Feature.h:40 | a number's decimal text is a non-empty digit string |
| Fsr31Feature.DecimalValueOfDecimal | OptiScaler/upscalers/fsr31/FSR31Feature.h:40 | `%u` reads a number's decimal text back as that number |
| Fsr31Feature.DigitRunOfDigits | OptiScaler/upscalers/fsr31/FSR31Feature.h:40 | `%u` stops exactly at the end of a digit string followed by a non-digit |
| Fsr31Feature.ScanUintOfDecimal | OptiScaler/upscalers/fsr31/FSR31Feature.h:40 | one `%u` on decimal text converts that number |
| Fsr31Feature.ScanFieldsDotStep | OptiScaler/upscalers/fsr31/FSR31Feature.h:40 | a number then a dot converts one field and continues after the dot |
| Fsr31Feature.ScanFieldsLast | OptiScaler/upscalers/fsr31/FSR31Feature.h:40 | the last field of a triple converts alone |
| Fsr31Feature.ScanTripleOfFormat | OptiScaler/upscalers/fsr31/FSR31Feature.h:40 | `"%u.%u.%u"` on "M.m.p" converts the three numbers |
| Fsr31Feature.ParseVersionRoundTrip | OptiScaler/upscalers/fsr31/FSR31Feature.h:31-47 | a digit-free label followed by "M.m.p" parses back to M.m.p with the corrected parse |
| Fsr31Feature.ParseFromAsWrittenSkipsLabel | OptiScaler/upscalers/fsr31/FSR31Feature.h:36-44 | the scan as written skips a digit-free label to the triple |
| Fsr31Feature.ParseVersionAsWrittenRoundTrip | OptiScaler/upscalers/fsr31/FSR31Feature.h:31-47 | the code as written also parses a well-formed "label M.m.p" correctly |
| Fsr31Feature.Fsr31Version.constructor | OptiScaler/upscalers/fsr31/FSR31Feature.h:19 | the shared version starts at 3.1.2 |
| Fsr31Feature.Fsr31Version.ParseVersion | OptiScaler/upscalers/fsr31/FSR31Feature.h:31-47 | the character-by-character scan leaves the shared version as the as-written parse says |
| Fsr31Feature.Fsr31Identity.constructor | OptiScaler/upscalers/fsr31/FSR31Feature.h:22 | an instance is named "FSR" and reads the shared version |
| Fsr31Feature.Fsr31Identity.Version | OptiScaler/upscalers/fsr31/FSR31Feature.h:113 | `Version()` returns the shared version |
| Fsr31Feature.Fsr31Identity.Name | OptiScaler/upscalers/fsr31/FSR31Feature.h:119 | `Name()` returns the instance's name |
| Fsr31Feature.DefaultIdentity | OptiScaler/upscalers/fsr31/FSR31Feature.h:19-22 | a fresh instance reports version 3.1.2 and name "FSR" |
| IFeatureDx12.CommandList.constructor | OptiScaler/upscalers/IFeature_Dx12.cpp:5-18 | a new command list has no recorded barriers |
| IFeatureDx12.BarriersFor | OptiScaler/upscalers/IFeature_Dx12.cpp:8-17 | nothing when the states are equal, otherwise exactly one transition on the resource over all subresources |
| IFeatureDx12.Apply | OptiScaler/upscalers/IFeature_Dx12.cpp:11-17 | executing barriers never forgets a resource's state |
| IFeatureDx12.ApplyAppend | OptiScaler/upscalers/IFeature_Dx12.cpp:17 | executing two recorded batches is executing their concatenation |
| IFeatureDx12.BarriersForReachAfter | OptiScaler/upscalers/IFeature_Dx12.cpp:5-18 | a resource in the before state is in the after state once the recorded barriers run, and nothing else changes |
| IFeatureDx12.BarriersForRoundTrip | OptiScaler/upscalers/IFeature_Dx12.cpp:5-18 | a transition followed by the reverse one leaves every resource as it was |
| IFeatureDx12.ResourceBarrier | OptiScaler/upscalers/IFeature_Dx12.cpp:5-18 | the list gains exactly `BarriersFor`'s barriers |
| IFeatureDx12.TryResourceBarrierFrom | OptiScaler/upscalers/IFeature_Dx12.cpp:20-30 | true iff list, resource and before state are present; then it records as `ResourceBarrier`, otherwise nothing |
| IFeatureDx12.TryResourceBarrierTo | OptiScaler/upscalers/IFeature_Dx12.cpp:32-42 | the same rule on the optional after state |
| IFeatureDx12.HelpersAfterDestroy | OptiScaler/upscalers/IFeature_Dx12.cpp:46-62 | at shutdown every helper is kept; otherwise none is |
| IFeatureDx12.Feature.constructor | OptiScaler/upscalers/IFeature_Dx12.cpp:44 | a new feature owns no helper pass |
| IFeatureDx12.Feature.Destroy | OptiScaler/upscalers/IFeature_Dx12.cpp:46-62 | the owned helpers afterwards are `HelpersAfterDestroy`'s |

## Left out

- Frame generation is not modelled: `currentFG`, `DestroyFGContext`, `UpdateTarget`, `FGchanged`, `ClearCapturedHudlesses` and `UpscalerInputsDx12`. They are collaborators outside this core.
- Settle sleeps are recorded as the chosen delay in `sleeps`; no time passes.
- Native NGX and DLSSG-mod calls are fields of `Env`, because they are foreign calls. The mod-id offsets `DLSS_MOD_ID_OFFSET` and `DLSSG_MOD_ID_OFFSET` are the parameters `IdRanges`, because their values are defined elsewhere.
- `UseGenericAppIdWithDlss` (the app-id and project-id override) is not modelled. The application data path, SDK version, feature info and logger recorded by `Init_Ext` are not modelled either. The device hook, `UpscalerTimeDx12` and `UpscalerInputsDx12::Init` are left out too. All of these are I/O or outside state.
- `NVSDK_NGX_D3D12_Init_with_ProjectID` is left out; it is not exported by the native runtime.
- The input-API name bookkeeping in `TryEvaluateOptiFeature` is left out. It is display only.
- `AutoExposure` resets, `HookToCommandList` and the root-signature maps that `RestoreRootSignatures` reads are left out. They are guarded by mutexes against other render threads. Only the `contextRendering` flag around them is modelled.
- `evalCounter` is an unbounded integer; its `int` overflow after 2^31 frames is not modelled.
- `changeBackend[h]` reads false for a missing key, as `operator[]` does. The key it inserts on reading is not modelled.
- The failure branch after `GetFeature` in `TryCreateOptiFeature` (NVNGX_DLSS_Dx12.cpp:685-695) cannot be reached in the model, because the DX12 `GetFeature` always returns true.
- `CustomOptional` is an optional value with a default. Its other semantics (volatile values, change tracking) are not modelled.
- The FidelityFX header constants are assumed values from the FidelityFX API headers: the effect mask, the effect ids, the return codes and the two version-query descriptor types. The proofs use only their distinctness and their position inside the mask.
- `main_vk`, `InitFfxVk`, `VersionVk` and the Vulkan routing functions are left out. They repeat the DX12 logic for one module.
- DLL search paths, `FfxDx12Path`, `isLoader` and its file-size test, `FSR4ModelSelection`, and the Detours hooks (`EnableFfxInputs`, `fsrHooks`) are left out. They are OS I/O. A module's load result is the parameter `Search`.
- FfxApiProxy.ReturnCodeToString: states only that unlisted codes read "Unknown". The seven listed texts are in its body. Their distinctness from "Unknown" and from each other is not proved, because facts about long string literals are beyond the verifier's budget.
- FfxApiProxy.Proxy.DestroyContext: the early returns after an OK reply are written as guards on each later step. The order of calls and the result are the same.
- The `HMODULE` and the resolved entry points of `FfxModule` are booleans. An entry point left behind after `dll` is nulled stays set, as in the source.
- `(D3D12_RESOURCE_STATES)` casts of the optional `int32_t` states are the identity.
- The helper passes owned by `IFeature_Dx12` (Imgui, OutputScaler, RCAS, Bias) are ownership flags; what their destructors do is not part of this model.
- The backend adapters are the nondeterministic results `ModuleLoaded`, `Init` and `Evaluate`. This covers the FSR 2.1.2, FSR 2 11-on-12 and FSR 3.1 DX12 classes, and their requests to switch their own handle. Their GPU work and floating-point settings are not modelled.
- Upscalers.NewScratchTable: assumes that the table `GetNGXParameters(provider, false)` returns carries the `OptiScaler` = 1 sentinel. The body of `GetNGXParameters` is not part of this model; OptiScaler/upscalers/FeatureProvider_Dx12.cpp:128 only calls it. `FullSwitchReleasesScratchTable` and the sentinel cases of phase 3 rest on this assumption.
- For a DLSS passthrough the source keeps the caller's own table pointer as `createParams` (OptiScaler/upscalers/FeatureProvider_Dx12.cpp:128, OptiScaler/upscalers/FeatureProvider_Dx11.cpp:139, OptiScaler/upscalers/FeatureProvider_Vk.cpp:121). The model keeps a value copy in `ContextData.createParams`, so later phases do not see what the caller writes into that table between frames. The aliasing is not modelled.
- `%u` conversions of numbers outside the range of `unsigned int` have no defined result in C. The model reduces them modulo 2^32, as the common C libraries do (`Fsr31Feature.Wrap32`).
- `MathUtils.h` (floating point), `Upscaler_Inputs_Dx12.cpp` (FG inputs, a mutex wait) and the string conversions in `SysUtils.h` are left out.

## Findings

| source | as written | input that shows it | evidently intended | confidence | as-written member | corrected member |
|---|---|---|---|---|---|---|
| OptiScaler/upscalers/fsr31/FSR31Feature.h:31-47 | `sscanf` writes into `_version` directly, so a partial match ("3.1", then "1") overwrites components before the loop moves on. The same code is at OptiScaler/proxies/FfxApi_Proxy.h:69-85 | "v3.1" with the default 3.1.2 yields 1.1.2, while the code logs "can't parse" | the version is set only from a complete "M.m.p" triple and otherwise keeps its previous value | not executed | Fsr31Feature.ParseVersionAsWrittenOverwritesOnFailure | Fsr31Feature.ParseVersionKeepsDefaultOnFailure |
| OptiScaler/proxies/FfxApi_Proxy.h:69-85 | the proxy's copy of `parse_version` overwrites its version cache with a partial match, and `VersionDx12` then returns that value instead of asking the upscaling and frame-generation modules | main's version query answers with the name "v3.1" while nothing is cached: 1.1.0 is cached and returned | only a complete "M.m.p" triple sets the version; otherwise the cache stays empty and the fallbacks are asked | not executed | FfxApiProxy.VersionDx12TakesPartialMatch | Fsr31Feature.ParseVersionOutcome |

The model of the FSR 3.1 class, `Fsr31Feature.Fsr31Version.ParseVersion`, follows the code as written. It is specified by `Fsr31Feature.ParseVersionAsWritten`. The corrected parse is `Fsr31Feature.ParseVersionIntended`, with `Fsr31Feature.ParseVersionOutcome`, `Fsr31Feature.ParseVersionIntendedNeedsTriple` and `Fsr31Feature.ParseVersionRoundTrip` proved about it. The FidelityFX proxy's own copy of `parse_version` is modelled as written as well: `FfxApiProxy.QueryVersion` uses `Fsr31Feature.ParseVersionAsWritten`, and `FfxApiProxy.VersionDx12TakesPartialMatch` shows the partial match reaching the proxy's version cache.
