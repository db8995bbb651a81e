/**
 * IFeature_Dx12 (OptiScaler/upscalers/IFeature_Dx12.cpp): the resource
 * transitions every DX12 upscaler records around its dispatch, and the
 * release of the helper passes a feature owns.
 *
 * A command list is the sequence of barriers recorded on it; the GPU state
 * of resources is a map that applying barriers updates, which is what the
 * recorded transitions mean.
 */
module IFeatureDx12 {
  import opened Wrappers

  /** `D3D12_RESOURCE_STATES`; an optional state is held as the `int32_t` it is cast from. */
  type ResourceState = int

  /** A non-null `ID3D12Resource*`. */
  type ResourceId = nat

  /** `D3D12_RESOURCE_BARRIER_ALL_SUBRESOURCES`. */
  const AllSubresources: bv32 := 0xffff_ffff

  /** A `D3D12_RESOURCE_BARRIER` of type transition; `resource` is `None` for a null pointer. */
  datatype Barrier = Transition(resource: Option<ResourceId>, before: ResourceState, after: ResourceState, subresource: bv32)

  /** An `ID3D12GraphicsCommandList` and the barriers recorded on it so far. */
  class CommandList {
    var barriers: seq<Barrier>

    constructor ()
      ensures barriers == []
    {
      barriers := [];
    }
  }

  /** The barriers `ResourceBarrier` records. */
  function BarriersFor(resource: Option<ResourceId>, before: ResourceState, after: ResourceState): (r: seq<Barrier>)
    ensures |r| <= 1
    ensures r == [] <==> before == after
    ensures forall b :: b in r ==> b.resource == resource && b.subresource == AllSubresources
  {
    if before == after then [] else [Transition(resource, before, after, AllSubresources)]
  }

  /** The resource states after the GPU executes `bs` in order (a barrier on a null resource does nothing). */
  function Apply(states: map<ResourceId, ResourceState>, bs: seq<Barrier>): (r: map<ResourceId, ResourceState>)
    ensures r.Keys >= states.Keys
    decreases |bs|
  {
    if bs == [] then states
    else
      var b := bs[0];
      var next := if b.resource.Some? then states[b.resource.value := b.after] else states;
      Apply(next, bs[1..])
  }

  lemma {:induction false} ApplyAppend(states: map<ResourceId, ResourceState>, bs: seq<Barrier>, cs: seq<Barrier>)
    ensures Apply(states, bs + cs) == Apply(Apply(states, bs), cs)
    decreases |bs|
  {
    if bs != [] {
      assert (bs + cs)[0] == bs[0];
      assert (bs + cs)[1..] == bs[1..] + cs;
      var b := bs[0];
      var next := if b.resource.Some? then states[b.resource.value := b.after] else states;
      ApplyAppend(next, bs[1..], cs);
    } else {
      assert bs + cs == cs;
    }
  }

  /**
   * Whatever was recorded, a resource in `before` is in `after` once the
   * recorded barriers execute, and no other resource changes state.
   */
  lemma BarriersForReachAfter(states: map<ResourceId, ResourceState>, res: ResourceId,
                              before: ResourceState, after: ResourceState)
    requires res in states && states[res] == before
    ensures Apply(states, BarriersFor(Some(res), before, after)) == states[res := after]
  {
    if before != after {
      var bs := BarriersFor(Some(res), before, after);
      assert bs[1..] == [];
    } else {
      assert states[res := after] == states;
    }
  }

  /** A transition followed by the one back leaves every resource as it was. */
  lemma BarriersForRoundTrip(states: map<ResourceId, ResourceState>, res: ResourceId,
                             before: ResourceState, after: ResourceState)
    requires res in states && states[res] == before
    ensures Apply(states, BarriersFor(Some(res), before, after) + BarriersFor(Some(res), after, before)) == states
  {
    ApplyAppend(states, BarriersFor(Some(res), before, after), BarriersFor(Some(res), after, before));
    BarriersForReachAfter(states, res, before, after);
    BarriersForReachAfter(states[res := after], res, after, before);
    assert states[res := after][res := before] == states;
  }

  /** `IFeature_Dx12::ResourceBarrier`: record one transition on `list` unless the states are equal. */
  method ResourceBarrier(list: CommandList, resource: Option<ResourceId>, before: ResourceState, after: ResourceState)
    modifies list
    ensures list.barriers == old(list.barriers) + BarriersFor(resource, before, after)
  {
    if before == after {
      assert BarriersFor(resource, before, after) == [];
      assert list.barriers + [] == list.barriers;
      return;
    }
    var barrier := Transition(resource, before, after, AllSubresources);
    list.barriers := list.barriers + [barrier];
  }

  /**
   * `TryResourceBarrier` with an optional before-state: true exactly when
   * the list and the resource are non-null and the state is set; then it
   * records as `ResourceBarrier`, otherwise nothing.
   */
  method TryResourceBarrierFrom(list: CommandList?, resource: Option<ResourceId>, before: Option<int>,
                                after: ResourceState) returns (ok: bool)
    modifies list
    ensures ok <==> list != null && resource.Some? && before.Some?
    ensures ok ==> list.barriers == old(list.barriers) + BarriersFor(resource, before.value, after)
    ensures !ok && list != null ==> list.barriers == old(list.barriers)
  {
    if list != null && resource.Some? && before.Some? {
      ResourceBarrier(list, resource, before.value, after);
      return true;
    } else {
      return false;
    }
  }

  /** `TryResourceBarrier` with an optional after-state, under the same rule. */
  method TryResourceBarrierTo(list: CommandList?, resource: Option<ResourceId>, before: ResourceState,
                              after: Option<int>) returns (ok: bool)
    modifies list
    ensures ok <==> list != null && resource.Some? && after.Some?
    ensures ok ==> list.barriers == old(list.barriers) + BarriersFor(resource, before, after.value)
    ensures !ok && list != null ==> list.barriers == old(list.barriers)
  {
    if list != null && resource.Some? && after.Some? {
      ResourceBarrier(list, resource, before, after.value);
      return true;
    } else {
      return false;
    }
  }

  // ---------------------------------------------------------------------------
  // Owned helper passes
  // ---------------------------------------------------------------------------

  /** Which helper passes a feature still owns. */
  datatype Helpers = Helpers(imgui: bool, outputScaler: bool, rcas: bool, bias: bool)

  const NoHelpers := Helpers(false, false, false, false)

  /** What the destructor leaves: everything while shutting down, nothing otherwise. */
  function HelpersAfterDestroy(h: Helpers, isShuttingDown: bool): (r: Helpers)
    ensures isShuttingDown ==> r == h
    ensures !isShuttingDown ==> r == NoHelpers
  {
    if isShuttingDown then h else NoHelpers
  }

  /** The helper-owning part of `IFeature_Dx12`. */
  class Feature {
    var imgui: bool
    var outputScaler: bool
    var rcas: bool
    var bias: bool

    function Owned(): Helpers
      reads this
    {
      Helpers(imgui, outputScaler, rcas, bias)
    }

    /** `IFeature_Dx12::IFeature_Dx12`: the helpers are created later, by the backends. */
    constructor ()
      ensures Owned() == NoHelpers
    {
      imgui, outputScaler, rcas, bias := false, false, false, false;
    }

    /** `IFeature_Dx12::~IFeature_Dx12`: release each owned helper unless the process is shutting down. */
    method Destroy(isShuttingDown: bool)
      modifies this
      ensures Owned() == HelpersAfterDestroy(old(Owned()), isShuttingDown)
    {
      if isShuttingDown {
        return;
      }
      if imgui {
        imgui := false;
      }
      if outputScaler {
        outputScaler := false;
      }
      if rcas {
        rcas := false;
      }
      if bias {
        bias := false;
      }
    }
  }
}
