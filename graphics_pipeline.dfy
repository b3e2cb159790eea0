/** The GraphicsPipeline object: the fixed-function state its Config selects,
    the process-wide cache of device limits, and the bookkeeping that ties
    the reflected binding map to the descriptor pool, the per-image uniform
    buffers, their descriptor sets and SetUniform. */
module GraphicsPipelines {
  import opened VkTypes
  import opened ShaderReflection
  import opened VertexInput
  import opened DescriptorLayout
  import opened UniformBuffers

  // ---------------------------------------------------------------------------
  // Config and the fixed-function state it selects.
  // ---------------------------------------------------------------------------

  /** GraphicsPipeline::Config without the shader file list, which the model
      replaces by the reflected modules. */
  datatype Config = Config(enableDepthTest: bool, drawWireframe: bool, enableCullFace: bool, enableBlending: bool)

  const DefaultConfig: Config := Config(true, false, true, true)

  datatype PolygonMode = PolygonFill | PolygonLine
  datatype CullMode = CullNone | CullBack
  datatype CompareOp = CompareLess | CompareAlways
  datatype BlendFactor = FactorZero | FactorOne | FactorSrcAlpha | FactorOneMinusSrcAlpha

  /** The rasterisation, depth and colour-blend fields InitialisePipeline sets
      from the config. */
  datatype FixedFunctionState = FixedFunctionState(
    polygonMode: PolygonMode,
    cullMode: CullMode,
    depthTestEnable: bool,
    depthWriteEnable: bool,
    depthCompareOp: CompareOp,
    blendEnable: bool,
    srcColorBlendFactor: BlendFactor,
    dstColorBlendFactor: BlendFactor)

  function FixedFunction(config: Config): FixedFunctionState {
    FixedFunctionState(
      if config.drawWireframe then PolygonLine else PolygonFill,
      if config.enableCullFace then CullBack else CullNone,
      config.enableDepthTest,
      config.enableDepthTest,
      if config.enableDepthTest then CompareLess else CompareAlways,
      config.enableBlending,
      if config.enableBlending then FactorSrcAlpha else FactorOne,
      if config.enableBlending then FactorOneMinusSrcAlpha else FactorZero)
  }

  // What the device does with that state (the Vulkan specification's
  // depth test, face culling with counter-clockwise front faces, and additive
  // colour blending), as the meaning of the fields above.

  function DepthTestPasses(s: FixedFunctionState, incoming: real, stored: real): bool {
    !s.depthTestEnable ||
    match s.depthCompareOp
    case CompareLess => incoming < stored
    case CompareAlways => true
  }

  function DepthAfter(s: FixedFunctionState, incoming: real, stored: real): real {
    if s.depthTestEnable && s.depthWriteEnable && DepthTestPasses(s, incoming, stored) then incoming else stored
  }

  function Culled(s: FixedFunctionState, frontFacing: bool): bool {
    s.cullMode == CullBack && !frontFacing
  }

  function FactorValue(f: BlendFactor, srcAlpha: real): real {
    match f
    case FactorZero => 0.0
    case FactorOne => 1.0
    case FactorSrcAlpha => srcAlpha
    case FactorOneMinusSrcAlpha => 1.0 - srcAlpha
  }

  function BlendedChannel(s: FixedFunctionState, src: real, srcAlpha: real, dst: real): real {
    if !s.blendEnable then src
    else FactorValue(s.srcColorBlendFactor, srcAlpha) * src + FactorValue(s.dstColorBlendFactor, srcAlpha) * dst
  }

  /** With the depth test on, a fragment survives exactly when it is nearer
      than what is stored and then becomes the stored depth; with it off,
      every fragment survives and the depth buffer keeps its value. */
  lemma DepthTestBehaviour(config: Config, incoming: real, stored: real)
    ensures config.enableDepthTest ==>
              (DepthTestPasses(FixedFunction(config), incoming, stored) <==> incoming < stored)
              && DepthAfter(FixedFunction(config), incoming, stored) == (if incoming < stored then incoming else stored)
    ensures !config.enableDepthTest ==>
              DepthTestPasses(FixedFunction(config), incoming, stored)
              && DepthAfter(FixedFunction(config), incoming, stored) == stored
  {
  }

  /** A triangle is culled exactly when culling is on and it faces away;
      wireframe selects line rasterisation. */
  lemma RasterisationBehaviour(config: Config, frontFacing: bool)
    ensures Culled(FixedFunction(config), frontFacing) <==> config.enableCullFace && !frontFacing
    ensures FixedFunction(config).polygonMode == PolygonLine <==> config.drawWireframe
  {
  }

  /** Blending on mixes the new colour over the old by its alpha, and an
      alpha in [0, 1] keeps the result between the two; blending off writes
      the new colour. */
  lemma BlendBehaviour(config: Config, src: real, srcAlpha: real, dst: real)
    ensures config.enableBlending ==>
              BlendedChannel(FixedFunction(config), src, srcAlpha, dst) == srcAlpha * src + (1.0 - srcAlpha) * dst
    ensures config.enableBlending && 0.0 <= srcAlpha <= 1.0 ==>
              var r := BlendedChannel(FixedFunction(config), src, srcAlpha, dst);
              (src <= r <= dst) || (dst <= r <= src)
    ensures !config.enableBlending ==> BlendedChannel(FixedFunction(config), src, srcAlpha, dst) == src
  {
    if config.enableBlending && 0.0 <= srcAlpha <= 1.0 {
      var r := srcAlpha * src + (1.0 - srcAlpha) * dst;
      if src <= dst {
        NonNegativeProduct(srcAlpha, dst - src);
        NonNegativeProduct(1.0 - srcAlpha, dst - src);
        assert dst - r == srcAlpha * (dst - src);
        assert r - src == (1.0 - srcAlpha) * (dst - src);
      } else {
        NonNegativeProduct(srcAlpha, src - dst);
        NonNegativeProduct(1.0 - srcAlpha, src - dst);
        assert r - dst == srcAlpha * (src - dst);
        assert src - r == (1.0 - srcAlpha) * (src - dst);
      }
    }
  }

  lemma NonNegativeProduct(x: real, y: real)
    requires x >= 0.0 && y >= 0.0
    ensures x * y >= 0.0
  {
  }

  /** The default config draws filled, back-face-culled, depth-tested,
      alpha-blended triangles. */
  lemma DefaultConfigState()
    ensures FixedFunction(DefaultConfig) ==
              FixedFunctionState(PolygonFill, CullBack, true, true, CompareLess, true, FactorSrcAlpha, FactorOneMinusSrcAlpha)
  {
  }

  // ---------------------------------------------------------------------------
  // The process-wide device limits.
  // ---------------------------------------------------------------------------

  /** s_minOffsetAlignment and s_maxPushConstantBufferSize: shared by every
      pipeline, starting at the sentinels U64Max and 0. */
  class DeviceLimitCache {
    var minOffsetAlignment: nat
    var maxPushConstantSize: nat

    /** The alignment is never 0: it starts at the sentinel and is loaded
        from a device, whose limit is a power of two. */
    ghost predicate Valid()
      reads this
    {
      minOffsetAlignment > 0
    }

    constructor()
      ensures Valid()
      ensures minOffsetAlignment == U64Max && maxPushConstantSize == 0
    {
      minOffsetAlignment := U64Max;
      maxPushConstantSize := 0;
    }

    predicate NeedsReload()
      reads this
    {
      minOffsetAlignment == U64Max || maxPushConstantSize == 0
    }

    /** The start of the GraphicsPipeline constructor: the device's limits
        are read only while a sentinel is still in place. */
    method Load(deviceAlignment: nat, deviceMaxPushConstantSize: nat)
      requires Valid()
      requires deviceAlignment > 0
      modifies this
      ensures Valid()
      ensures old(NeedsReload()) ==>
                minOffsetAlignment == deviceAlignment && maxPushConstantSize == deviceMaxPushConstantSize
      ensures !old(NeedsReload()) ==>
                minOffsetAlignment == old(minOffsetAlignment) && maxPushConstantSize == old(maxPushConstantSize)
      ensures deviceAlignment != U64Max && deviceMaxPushConstantSize != 0 ==> !NeedsReload()
    {
      if NeedsReload() {
        minOffsetAlignment := deviceAlignment;
        maxPushConstantSize := deviceMaxPushConstantSize;
      }
    }
  }

  // ---------------------------------------------------------------------------
  // Pool sizing.
  // ---------------------------------------------------------------------------

  /** The pool holds, per descriptor type, one descriptor of that type for
      every binding of the type in every set; together that is one descriptor
      per binding per set. */
  lemma PoolCoversEverySet(b: seq<BindingEntry>, imageCount: nat)
    ensures CountOfType(b, UniformBufferDescriptor) * imageCount + CountOfType(b, CombinedImageSampler) * imageCount
            == |b| * imageCount
  {
    CountsCoverBindings(b);
    assert (CountOfType(b, UniformBufferDescriptor) + CountOfType(b, CombinedImageSampler)) * imageCount
           == CountOfType(b, UniformBufferDescriptor) * imageCount + CountOfType(b, CombinedImageSampler) * imageCount;
  }

  // ---------------------------------------------------------------------------
  // The pipeline object.
  // ---------------------------------------------------------------------------

  class GraphicsPipeline {
    var vertexBinding: BindingDescription
    var vertexAttributes: seq<AttributeDescription>
    var fixedFunction: FixedFunctionState

    /** m_bindingsData, m_pushConstantRange, the descriptor-set layout
        bindings and m_descriptorTypeCounts. */
    var bindings: seq<BindingEntry>
    var pushConstantRange: PushConstantRange
    var layoutBindings: seq<LayoutBinding>
    var typeCounts: map<DescriptorType, nat>

    var descriptorPool: Handle
    var poolSizes: map<DescriptorType, nat>
    var maxSets: nat

    var uniformBuffers: seq<UniformBuffer>
    /** The descriptor writes of each image's descriptor set. */
    var descriptorWrites: seq<seq<DescriptorWrite>>

    /** The layout bindings and the type tally describe the binding map. */
    ghost predicate LayoutMatchesBindings()
      reads this`bindings, this`layoutBindings, this`typeCounts
    {
      && |layoutBindings| == |bindings|
      && (forall i :: 0 <= i < |bindings| ==>
            layoutBindings[i] == LayoutBinding(bindings[i].binding, bindings[i].data.descriptorType, 1, bindings[i].data.shaderStages))
      && (forall t :: t in typeCounts <==> CountOfType(bindings, t) > 0)
      && (forall t :: t in typeCounts ==> typeCounts[t] == CountOfType(bindings, t))
    }

    /** Every uniform buffer is a distinct, created buffer as large as the
        sum of the uniform bindings' sizes. */
    ghost predicate BuffersFitBindings()
      reads this, uniformBuffers
    {
      && (forall i :: 0 <= i < |uniformBuffers| ==>
            && uniformBuffers[i].Valid()
            && uniformBuffers[i].bufferSize == UniformBufferSize(bindings)
            && uniformBuffers[i].allocation != NullHandle)
      && (forall i, j :: 0 <= i < j < |uniformBuffers| ==> uniformBuffers[i] != uniformBuffers[j])
    }

    ghost predicate Valid()
      reads this, uniformBuffers
    {
      && KeysAscending(bindings)
      && SizedExactlyWhenUniform(bindings)
      && LayoutMatchesBindings()
      && BuffersFitBindings()
    }

    /** The members' initial values: null handles, a zeroed push-constant
        range, empty containers. */
    constructor()
      ensures Valid()
      ensures bindings == [] && pushConstantRange == PushConstantRange(0, 0, 0)
      ensures layoutBindings == [] && typeCounts == map[]
      ensures descriptorPool == NullHandle && uniformBuffers == [] && descriptorWrites == []
    {
      vertexBinding := BindingDescription(0, 0, PerVertex);
      vertexAttributes := [];
      fixedFunction := FixedFunction(DefaultConfig);
      bindings := [];
      pushConstantRange := PushConstantRange(0, 0, 0);
      layoutBindings := [];
      typeCounts := map[];
      descriptorPool := NullHandle;
      poolSizes := map[];
      maxSets := 0;
      uniformBuffers := [];
      descriptorWrites := [];
    }

    /** The object holds the descriptor layout reflected from `modules`. */
    ghost predicate HoldsLayoutOf(modules: seq<ShaderModuleInfo>, alignment: nat, maxPushConstantSize: nat)
      requires alignment > 0
      reads this`bindings, this`pushConstantRange, this`layoutBindings, this`typeCounts
    {
      var f := Fold(AllEvents(modules), alignment, maxPushConstantSize);
      && f.Ok?
      && bindings == f.value.bindings
      && pushConstantRange == f.value.pushConstantRange
      && KeysAscending(bindings)
      && SizedExactlyWhenUniform(bindings)
      && LayoutMatchesBindings()
    }

    /** The object holds the vertex binding and attributes reflected from
        `modules`. */
    ghost predicate HoldsVertexInputOf(modules: seq<ShaderModuleInfo>)
      reads this`vertexBinding, this`vertexAttributes
    {
      var v := CollectInputs(VertexStageInputs(modules));
      && v.Ok?
      && vertexBinding == BindingDescription(0, SumSizes(v.value), PerVertex)
      && |vertexAttributes| == |v.value|
      && (forall i :: 0 <= i < |v.value| ==>
            vertexAttributes[i] == AttributeDescription(v.value[i].location, 0, v.value[i].format, SumSizes(v.value[..i])))
    }

    /** The pipeline holds the created pool, sized for `imageCount` sets of
        its bindings; one uniform buffer per image, created with the summed
        uniform size and the allocator's buffer, nothing written yet; and
        each image's descriptor writes at the bindings' uniform offsets. */
    ghost predicate HoldsResourcesFor(imageCount: nat, createdPool: Handle, allocations: seq<(Handle, Handle)>)
      reads this, uniformBuffers
    {
      && descriptorPool == createdPool && maxSets == imageCount
      && (forall t :: t in poolSizes <==> CountOfType(bindings, t) > 0)
      && (forall t :: t in poolSizes ==> poolSizes[t] == WrapU32(CountOfType(bindings, t) * imageCount))
      && |uniformBuffers| == imageCount && |allocations| == imageCount
      && (forall i :: 0 <= i < imageCount ==>
            && uniformBuffers[i].bufferSize == UniformBufferSize(bindings)
            && uniformBuffers[i].bufferHandle == allocations[i].0
            && uniformBuffers[i].memory == seq(UniformBufferSize(bindings), _ => None))
      && |descriptorWrites| == imageCount
      && (forall i :: 0 <= i < imageCount ==> |descriptorWrites[i]| == |bindings|)
      && (forall i, k :: 0 <= i < imageCount && 0 <= k < |bindings| ==>
            descriptorWrites[i][k] == WriteFor(i, bindings[k], UniformOffset(bindings, k)))
    }

    /** InitialiseDescriptorSetLayouts: the reflection loops over every
        module, then the layout bindings and the type tally. A throw leaves
        the object to be destroyed, so the model says nothing of its fields. */
    method InitialiseDescriptorSetLayouts(modules: seq<ShaderModuleInfo>, alignment: nat, maxPushConstantSize: nat)
      returns (error: Option<PipelineError>)
      requires alignment > 0
      modifies this`bindings, this`pushConstantRange, this`layoutBindings, this`typeCounts
      ensures var f := Fold(AllEvents(modules), alignment, maxPushConstantSize);
              && (f.Err? <==> error.Some?)
              && (f.Err? ==> error == Some(f.error))
      ensures error.None? ==> HoldsLayoutOf(modules, alignment, maxPushConstantSize)
    {
      var r := ReflectDescriptorBindings(modules, alignment, maxPushConstantSize);
      if r.Err? {
        return Some(r.error);
      }
      FoldSizedExactlyWhenUniform(AllEvents(modules), alignment, maxPushConstantSize);
      bindings := r.value.bindings;
      pushConstantRange := r.value.pushConstantRange;
      layoutBindings, typeCounts := BuildLayoutBindings(bindings);
      error := None;
    }

    /** InitialisePipeline: the descriptor-set layout first, then the vertex
        input, then the fixed-function state from the config. */
    method InitialisePipeline(modules: seq<ShaderModuleInfo>, config: Config, alignment: nat, maxPushConstantSize: nat)
      returns (error: Option<PipelineError>)
      requires alignment > 0
      modifies this`bindings, this`pushConstantRange, this`layoutBindings, this`typeCounts, this`vertexBinding, this`vertexAttributes, this`fixedFunction
      ensures var f := Fold(AllEvents(modules), alignment, maxPushConstantSize);
              var v := CollectInputs(VertexStageInputs(modules));
              && (f.Err? ==> error == Some(f.error))
              && (f.Ok? && v.Err? ==> error == Some(v.error))
              && (f.Ok? && v.Ok? ==> error.None?)
      ensures error.None? ==>
                && HoldsLayoutOf(modules, alignment, maxPushConstantSize)
                && HoldsVertexInputOf(modules)
                && fixedFunction == FixedFunction(config)
    {
      error := InitialiseDescriptorSetLayouts(modules, alignment, maxPushConstantSize);
      if error.Some? {
        return;
      }
      error := InitialiseVertexInputAndState(modules, config);
    }

    /** The rest of InitialisePipeline: the vertex input of the first
        vertex-stage module, then the fixed-function state of the config. */
    method InitialiseVertexInputAndState(modules: seq<ShaderModuleInfo>, config: Config) returns (error: Option<PipelineError>)
      modifies this`vertexBinding, this`vertexAttributes, this`fixedFunction
      ensures var v := CollectInputs(VertexStageInputs(modules));
              && (v.Err? ==> error == Some(v.error))
              && (v.Ok? ==> error.None? && HoldsVertexInputOf(modules) && fixedFunction == FixedFunction(config))
    {
      var vertexInput := GetVertexInputData(modules);
      if vertexInput.Err? {
        return Some(vertexInput.error);
      }
      vertexBinding := vertexInput.value.0;
      vertexAttributes := vertexInput.value.1;
      fixedFunction := FixedFunction(config);
      error := None;
    }

    /** InitialiseDescriptorPool: one pool size per descriptor type in the
        tally, count × image count descriptors (a uint32), and one set per
        swapchain image. The pool the device creates is a parameter. */
    method InitialiseDescriptorPool(imageCount: nat, createdPool: Handle)
      requires LayoutMatchesBindings()
      modifies this
      ensures descriptorPool == createdPool && maxSets == imageCount
      ensures forall t :: t in poolSizes <==> CountOfType(bindings, t) > 0
      ensures forall t :: t in poolSizes ==> poolSizes[t] == WrapU32(CountOfType(bindings, t) * imageCount)
      ensures bindings == old(bindings) && layoutBindings == old(layoutBindings) && typeCounts == old(typeCounts)
      ensures uniformBuffers == old(uniformBuffers) && descriptorWrites == old(descriptorWrites)
      ensures pushConstantRange == old(pushConstantRange) && vertexBinding == old(vertexBinding)
      ensures vertexAttributes == old(vertexAttributes) && fixedFunction == old(fixedFunction)
    {
      var sizes: map<DescriptorType, nat> := map[];
      var remaining := typeCounts.Keys;
      while remaining != {}
        invariant remaining <= typeCounts.Keys
        invariant sizes.Keys == typeCounts.Keys - remaining
        invariant forall t :: t in sizes ==> sizes[t] == WrapU32(typeCounts[t] * imageCount)
        decreases remaining
      {
        var t :| t in remaining;
        sizes := sizes[t := WrapU32(typeCounts[t] * imageCount)];
        remaining := remaining - {t};
      }
      poolSizes := sizes;
      maxSets := imageCount;
      descriptorPool := createdPool;
    }

    /** DestroyDescriptorPool: with a pool, free it and forget the sets. */
    method DestroyDescriptorPool()
      modifies this
      ensures descriptorPool == NullHandle
      ensures descriptorWrites == if old(descriptorPool) == NullHandle then old(descriptorWrites) else []
      ensures poolSizes == old(poolSizes) && maxSets == old(maxSets)
      ensures bindings == old(bindings) && layoutBindings == old(layoutBindings) && typeCounts == old(typeCounts)
      ensures uniformBuffers == old(uniformBuffers)
      ensures pushConstantRange == old(pushConstantRange) && vertexBinding == old(vertexBinding)
      ensures vertexAttributes == old(vertexAttributes) && fixedFunction == old(fixedFunction)
    {
      if descriptorPool != NullHandle {
        descriptorPool := NullHandle;
        descriptorWrites := [];
      }
    }

    /** ResizeUniformBuffers: drop the old buffers and make one fresh,
        not yet created buffer per swapchain image. */
    method ResizeUniformBuffers(imageCount: nat)
      modifies this
      ensures |uniformBuffers| == imageCount
      ensures forall i :: 0 <= i < imageCount ==>
                fresh(uniformBuffers[i]) && uniformBuffers[i].bufferHandle == NullHandle && uniformBuffers[i].memory == []
      ensures forall i, j :: 0 <= i < j < imageCount ==> uniformBuffers[i] != uniformBuffers[j]
      ensures bindings == old(bindings) && layoutBindings == old(layoutBindings) && typeCounts == old(typeCounts)
      ensures descriptorPool == old(descriptorPool) && poolSizes == old(poolSizes) && maxSets == old(maxSets)
      ensures descriptorWrites == old(descriptorWrites)
      ensures pushConstantRange == old(pushConstantRange) && vertexBinding == old(vertexBinding)
      ensures vertexAttributes == old(vertexAttributes) && fixedFunction == old(fixedFunction)
    {
      var buffers: seq<UniformBuffer> := [];
      while |buffers| < imageCount
        invariant unchanged(this)
        invariant |buffers| <= imageCount
        invariant forall i :: 0 <= i < |buffers| ==>
                    fresh(buffers[i]) && buffers[i].bufferHandle == NullHandle && buffers[i].memory == []
        invariant forall i, j :: 0 <= i < j < |buffers| ==> buffers[i] != buffers[j]
        decreases imageCount - |buffers|
      {
        var buffer := new UniformBuffer();
        buffers := buffers + [buffer];
      }
      uniformBuffers := buffers;
    }

    /** InitialiseUniformBuffers: fresh buffers, each created with the sum of
        the uniform bindings' sizes, then the descriptor sets. The buffers
        and allocations the allocator returns are parameters. */
    method InitialiseUniformBuffers(imageCount: nat, allocations: seq<(Handle, Handle)>)
      requires KeysAscending(bindings) && SizedExactlyWhenUniform(bindings) && LayoutMatchesBindings()
      requires |allocations| == imageCount
      requires forall i :: 0 <= i < imageCount ==> allocations[i].1 != NullHandle
      modifies this
      ensures Valid()
      ensures |uniformBuffers| == imageCount
      ensures forall i :: 0 <= i < imageCount ==>
                && fresh(uniformBuffers[i])
                && uniformBuffers[i].bufferHandle == allocations[i].0
                && uniformBuffers[i].memory == seq(UniformBufferSize(bindings), _ => None)
      ensures |descriptorWrites| == imageCount
      ensures forall i :: 0 <= i < imageCount ==> |descriptorWrites[i]| == |bindings|
      ensures forall i, k :: 0 <= i < imageCount && 0 <= k < |bindings| ==>
                descriptorWrites[i][k] == WriteFor(i, bindings[k], UniformOffset(bindings, k))
      ensures bindings == old(bindings) && layoutBindings == old(layoutBindings) && typeCounts == old(typeCounts)
      ensures descriptorPool == old(descriptorPool) && poolSizes == old(poolSizes) && maxSets == old(maxSets)
      ensures pushConstantRange == old(pushConstantRange) && vertexBinding == old(vertexBinding)
      ensures vertexAttributes == old(vertexAttributes) && fixedFunction == old(fixedFunction)
    {
      ResizeUniformBuffers(imageCount);
      var i := 0;
      label Resized:
      while i < imageCount
        invariant 0 <= i <= imageCount
        invariant unchanged@Resized(this)
        invariant |uniformBuffers| == imageCount
        invariant forall j, k :: 0 <= j < k < imageCount ==> uniformBuffers[j] != uniformBuffers[k]
        invariant forall j :: 0 <= j < imageCount ==> fresh(uniformBuffers[j])
        invariant forall j :: 0 <= j < i ==>
                    && uniformBuffers[j].Valid()
                    && uniformBuffers[j].bufferSize == UniformBufferSize(bindings)
                    && uniformBuffers[j].bufferHandle == allocations[j].0
                    && uniformBuffers[j].allocation == allocations[j].1
                    && uniformBuffers[j].memory == seq(UniformBufferSize(bindings), _ => None)
        decreases imageCount - i
      {
        var size := ComputeUniformBufferSize(bindings);
        uniformBuffers[i].Initialise(size, allocations[i].0, allocations[i].1);
        i := i + 1;
      }
      descriptorWrites := DescriptorWrites(bindings, imageCount);
    }

    /** SetUniformBufferData, with the offset loop as it is evidently meant:
        lower bindings add their size only when they are uniform buffers.
        The bytes of the target's range in the acquired image's buffer
        become the first `size` bytes of `data`; a sampler target throws. */
    method SetUniformBufferData(target: nat, data: seq<Byte>, imageIndex: nat) returns (error: Option<PipelineError>)
      requires Valid()
      requires imageIndex < |uniformBuffers|
      requires UniformWriteRange(bindings, target).Ok? ==> UniformWriteRange(bindings, target).value.1 <= |data|
      modifies uniformBuffers[imageIndex]
      ensures Valid()
      ensures var r := UniformWriteRange(bindings, target);
              && (r.Err? ==> error == Some(r.error) && uniformBuffers[imageIndex].memory == old(uniformBuffers[imageIndex].memory))
              && (r.Ok? ==>
                    && error.None?
                    && uniformBuffers[imageIndex].memory
                       == Overwrite(old(uniformBuffers[imageIndex].memory), r.value.0, data[..r.value.1]))
    {
      var range := FindUniformWriteRange(bindings, target);
      if range.Err? {
        return Some(range.error);
      }
      var (offset, size) := range.value;
      uniformBuffers[imageIndex].SetBufferData(data[..size], offset);
      error := None;
    }

    /** RefreshUniformBuffers: after the queues go idle, a new descriptor
        pool, new uniform buffers and new descriptor sets for the current
        swapchain image count. */
    method RefreshUniformBuffers(imageCount: nat, createdPool: Handle, allocations: seq<(Handle, Handle)>)
      requires Valid()
      requires |allocations| == imageCount
      requires forall i :: 0 <= i < imageCount ==> allocations[i].1 != NullHandle
      modifies this
      ensures Valid()
      ensures HoldsResourcesFor(imageCount, createdPool, allocations)
      ensures forall i :: 0 <= i < imageCount ==> fresh(uniformBuffers[i])
      ensures bindings == old(bindings) && layoutBindings == old(layoutBindings) && typeCounts == old(typeCounts)
      ensures pushConstantRange == old(pushConstantRange) && vertexBinding == old(vertexBinding)
      ensures vertexAttributes == old(vertexAttributes) && fixedFunction == old(fixedFunction)
    {
      DestroyDescriptorPool();
      InitialiseDescriptorPool(imageCount, createdPool);
      InitialiseUniformBuffers(imageCount, allocations);
    }

    /** The constructor's body: load the device limits if still at their
        sentinels, build the pipeline, then the descriptor pool and the
        uniform buffers. */
    method Construct(modules: seq<ShaderModuleInfo>, config: Config, limits: DeviceLimitCache,
                     deviceAlignment: nat, deviceMaxPushConstantSize: nat,
                     imageCount: nat, createdPool: Handle, allocations: seq<(Handle, Handle)>)
      returns (error: Option<PipelineError>)
      requires limits.Valid()
      requires deviceAlignment > 0
      requires |allocations| == imageCount
      requires forall i :: 0 <= i < imageCount ==> allocations[i].1 != NullHandle
      modifies this, limits
      ensures limits.Valid()
      ensures old(limits.NeedsReload()) ==>
                limits.minOffsetAlignment == deviceAlignment && limits.maxPushConstantSize == deviceMaxPushConstantSize
      ensures !old(limits.NeedsReload()) ==>
                limits.minOffsetAlignment == old(limits.minOffsetAlignment)
                && limits.maxPushConstantSize == old(limits.maxPushConstantSize)
      ensures var f := Fold(AllEvents(modules), limits.minOffsetAlignment, limits.maxPushConstantSize);
              var v := CollectInputs(VertexStageInputs(modules));
              && (f.Err? ==> error == Some(f.error))
              && (f.Ok? && v.Err? ==> error == Some(v.error))
              && (f.Ok? && v.Ok? ==> error.None?)
      ensures error.None? ==>
                && HoldsLayoutOf(modules, limits.minOffsetAlignment, limits.maxPushConstantSize)
                && HoldsVertexInputOf(modules)
                && fixedFunction == FixedFunction(config)
                && Valid()
                && HoldsResourcesFor(imageCount, createdPool, allocations)
                && (forall i :: 0 <= i < imageCount ==> fresh(uniformBuffers[i]))
    {
      limits.Load(deviceAlignment, deviceMaxPushConstantSize);
      error := InitialisePipeline(modules, config, limits.minOffsetAlignment, limits.maxPushConstantSize);
      if error.Some? {
        return;
      }
      InitialiseDescriptorPool(imageCount, createdPool);
      InitialiseUniformBuffers(imageCount, allocations);
    }

    /** Destroy: the uniform buffers, then the descriptor pool and the sets
        allocated from it. The pipeline and its layout objects are not part
        of this model, so the reflected layout is left as it was. */
    method Destroy()
      modifies this
      ensures uniformBuffers == [] && descriptorPool == NullHandle
      ensures descriptorWrites == if old(descriptorPool) == NullHandle then old(descriptorWrites) else []
      ensures poolSizes == old(poolSizes) && maxSets == old(maxSets)
      ensures bindings == old(bindings) && layoutBindings == old(layoutBindings) && typeCounts == old(typeCounts)
      ensures pushConstantRange == old(pushConstantRange) && vertexBinding == old(vertexBinding)
      ensures vertexAttributes == old(vertexAttributes) && fixedFunction == old(fixedFunction)
    {
      uniformBuffers := [];
      DestroyDescriptorPool();
    }
  }
}
