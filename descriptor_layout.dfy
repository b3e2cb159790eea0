/** Descriptor-set reflection of GraphicsPipeline: the ordered map from binding
    number to binding data that InitialiseDescriptorSetLayouts builds from the
    shaders' uniform buffers and sampled images, the single push-constant
    range, and what is derived from the map afterwards: the layout bindings,
    the per-type descriptor counts, the per-image uniform buffer size, the
    descriptor writes and the byte range SetUniform writes to. */
module DescriptorLayout {
  import opened VkTypes
  import opened ShaderReflection

  datatype DescriptorType = UniformBufferDescriptor | CombinedImageSampler

  /** GraphicsPipeline::DescriptorSetBindingData. */
  datatype BindingData = BindingData(size: Option<nat>, descriptorType: DescriptorType, shaderStages: bv32)

  /** One entry of m_bindingsData, a std::map kept here as an association
      list in ascending key order, the order the map iterates in. */
  datatype BindingEntry = BindingEntry(binding: nat, data: BindingData)

  datatype PushConstantRange = PushConstantRange(stageFlags: bv32, offset: nat, size: nat)

  predicate KeysAscending(b: seq<BindingEntry>) {
    forall i, j :: 0 <= i < j < |b| ==> b[i].binding < b[j].binding
  }

  /** std::map::find. */
  function Lookup(b: seq<BindingEntry>, key: nat): (r: Option<BindingData>)
    ensures KeysAscending(b) && |b| > 0 && key < b[0].binding ==> r == None
    ensures r.Some? <==> exists i :: 0 <= i < |b| && b[i].binding == key
  {
    if |b| == 0 then None
    else if b[0].binding == key then Some(b[0].data)
    else
      var r := Lookup(b[1..], key);
      assert (exists i :: 0 <= i < |b| && b[i].binding == key) ==> exists i :: 0 <= i < |b[1..]| && b[1..][i].binding == key by {
        if exists i :: 0 <= i < |b| && b[i].binding == key {
          var i :| 0 <= i < |b| && b[i].binding == key;
          assert b[1..][i - 1].binding == key;
        }
      }
      r
  }

  /** What m_bindingsData holds at a key after a declaration: the new data if
      the key was absent, otherwise the old data with the new stage bits or-ed in. */
  function Merged(previous: Option<BindingData>, declared: BindingData): BindingData {
    match previous
    case None => declared
    case Some(d) => d.(shaderStages := d.shaderStages | declared.shaderStages)
  }

  /** The find / operator[] / |= sequence of InitialiseDescriptorSetLayouts:
      the map changes at `key` only, as Merged says. */
  function MergeBinding(b: seq<BindingEntry>, key: nat, declared: BindingData): (r: seq<BindingEntry>)
    requires KeysAscending(b)
    ensures KeysAscending(r)
    ensures |r| > 0 && (r[0].binding == key || (|b| > 0 && r[0].binding == b[0].binding))
    ensures forall k :: Lookup(r, k) == if k == key then Some(Merged(Lookup(b, key), declared)) else Lookup(b, k)
  {
    if |b| == 0 then [BindingEntry(key, declared)]
    else if key < b[0].binding then [BindingEntry(key, declared)] + b
    else if key == b[0].binding then [BindingEntry(key, Merged(Some(b[0].data), declared))] + b[1..]
    else [b[0]] + MergeBinding(b[1..], key, declared)
  }

  /** One reflected resource, in the order InitialiseDescriptorSetLayouts
      visits them: module by module, uniform buffers, then sampled images,
      then push-constant blocks. */
  datatype ResourceEvent =
    | UniformDeclared(stage: Stage, uniform: UniformResource)
    | SamplerDeclared(stage: Stage, sampler: SamplerResource)
    | PushConstantDeclared(stage: Stage, pushConstant: PushConstantResource)

  function UniformEvents(m: ShaderModuleInfo): seq<ResourceEvent> {
    seq(|m.uniformBuffers|, i requires 0 <= i < |m.uniformBuffers| => UniformDeclared(m.stage, m.uniformBuffers[i]))
  }

  function SamplerEvents(m: ShaderModuleInfo): seq<ResourceEvent> {
    seq(|m.sampledImages|, i requires 0 <= i < |m.sampledImages| => SamplerDeclared(m.stage, m.sampledImages[i]))
  }

  function PushConstantEvents(m: ShaderModuleInfo): seq<ResourceEvent> {
    seq(|m.pushConstantBuffers|, i requires 0 <= i < |m.pushConstantBuffers| => PushConstantDeclared(m.stage, m.pushConstantBuffers[i]))
  }

  function ModuleEvents(m: ShaderModuleInfo): seq<ResourceEvent> {
    UniformEvents(m) + SamplerEvents(m) + PushConstantEvents(m)
  }

  function AllEvents(modules: seq<ShaderModuleInfo>): seq<ResourceEvent> {
    if |modules| == 0 then [] else AllEvents(modules[..|modules| - 1]) + ModuleEvents(modules[|modules| - 1])
  }

  /** The size a uniform binding is given: the declared struct size grown by
      `alignment - size % alignment`, which is the multiple of the alignment
      that follows the last one not above the declared size; a size that is
      already a multiple still gains a whole alignment. */
  function PaddedUniformSize(declared: nat, alignment: nat): (padded: nat)
    requires alignment > 0
    ensures declared < padded <= declared + alignment
  {
    declared + (alignment - declared % alignment)
  }

  /** The padded size is the first multiple of the alignment above the
      declared size, so a size that is already a multiple gains a whole
      alignment. */
  lemma PaddedUniformSizeIsNextMultiple(declared: nat, alignment: nat)
    requires alignment > 0
    ensures PaddedUniformSize(declared, alignment) == (declared / alignment + 1) * alignment
    ensures declared % alignment == 0 ==> PaddedUniformSize(declared, alignment) == declared + alignment
  {
  }

  /** The binding data a declaration contributes.  The padded uniform size is
      computed in size_t and stored through a uint32 cast; since 2^32 divides
      2^64, only the uint32 reduction is visible. */
  function DeclaredData(e: ResourceEvent, alignment: nat): BindingData
    requires alignment > 0
    requires !e.PushConstantDeclared?
  {
    match e
    case UniformDeclared(stage, u) =>
      BindingData(Some(WrapU32(PaddedUniformSize(u.declaredSize, alignment))), UniformBufferDescriptor, StageBits(stage))
    case SamplerDeclared(stage, _) => BindingData(None, CombinedImageSampler, StageBits(stage))
  }

  function DeclaredBinding(e: ResourceEvent): nat
    requires !e.PushConstantDeclared?
  {
    if e.UniformDeclared? then e.uniform.binding else e.sampler.binding
  }

  function DeclaredSet(e: ResourceEvent): nat
    requires !e.PushConstantDeclared?
  {
    if e.UniformDeclared? then e.uniform.descriptorSet else e.sampler.descriptorSet
  }

  /** What InitialiseDescriptorSetLayouts has built so far. */
  datatype LayoutState = LayoutState(bindings: seq<BindingEntry>, pushConstantRange: PushConstantRange)

  const EmptyLayout: LayoutState := LayoutState([], PushConstantRange(0, 0, 0))

  /** One iteration of the resource loops. */
  function Step(st: LayoutState, e: ResourceEvent, alignment: nat, maxPushConstantSize: nat): (r: Result<LayoutState, PipelineError>)
    requires alignment > 0
    requires KeysAscending(st.bindings)
    ensures r.Ok? ==> KeysAscending(r.value.bindings)
  {
    match e
    case PushConstantDeclared(stage, p) =>
      if st.pushConstantRange.stageFlags == 0 then
        var range := PushConstantRange(StageBits(stage), 0, WrapU32(p.declaredSize));
        if range.size > maxPushConstantSize then Err(PushConstantBufferTooLarge)
        else Ok(st.(pushConstantRange := range))
      else Ok(st.(pushConstantRange := st.pushConstantRange.(stageFlags := StageBits(stage))))
    case _ =>
      if DeclaredSet(e) != 0 then Err(NonZeroDescriptorSet)
      else Ok(st.(bindings := MergeBinding(st.bindings, DeclaredBinding(e), DeclaredData(e, alignment))))
  }

  /** The resource loops over a sequence of declarations from a given state,
      stopping at the first throw. */
  function FoldFrom(st: LayoutState, events: seq<ResourceEvent>, alignment: nat, maxPushConstantSize: nat): (r: Result<LayoutState, PipelineError>)
    requires alignment > 0
    requires KeysAscending(st.bindings)
    ensures r.Ok? ==> KeysAscending(r.value.bindings)
  {
    if |events| == 0 then Ok(st)
    else
      match FoldFrom(st, events[..|events| - 1], alignment, maxPushConstantSize)
      case Err(e) => Err(e)
      case Ok(s) => Step(s, events[|events| - 1], alignment, maxPushConstantSize)
  }

  /** The resource loops of InitialiseDescriptorSetLayouts from the empty map
      and the zeroed push-constant range. */
  function Fold(events: seq<ResourceEvent>, alignment: nat, maxPushConstantSize: nat): (r: Result<LayoutState, PipelineError>)
    requires alignment > 0
    ensures r.Ok? ==> KeysAscending(r.value.bindings)
  {
    FoldFrom(EmptyLayout, events, alignment, maxPushConstantSize)
  }

  /** Running two runs of declarations one after the other is running their concatenation. */
  lemma {:induction false} FoldFromAppend(st: LayoutState, a: seq<ResourceEvent>, b: seq<ResourceEvent>, alignment: nat, maxPushConstantSize: nat)
    requires alignment > 0
    requires KeysAscending(st.bindings)
    ensures FoldFrom(st, a + b, alignment, maxPushConstantSize) ==
              match FoldFrom(st, a, alignment, maxPushConstantSize)
              case Err(e) => Err(e)
              case Ok(s) => FoldFrom(s, b, alignment, maxPushConstantSize)
  {
    if |b| == 0 {
      assert a + b == a;
    } else {
      var b' := b[..|b| - 1];
      FoldFromAppend(st, a, b', alignment, maxPushConstantSize);
      assert (a + b)[..|a + b| - 1] == a + b';
      assert (a + b)[|a + b| - 1] == b[|b| - 1];
    }
  }

  lemma {:induction false} AllEventsSplit(modules: seq<ShaderModuleInfo>, m: nat)
    requires m <= |modules|
    ensures AllEvents(modules) == AllEvents(modules[..m]) + AllEvents(modules[m..])
    decreases |modules|
  {
    if m < |modules| {
      var n := |modules| - 1;
      AllEventsSplit(modules[..n], m);
      assert modules[..n][..m] == modules[..m];
      assert modules[m..][..|modules[m..]| - 1] == modules[..n][m..];
      assert modules[m..][|modules[m..]| - 1] == modules[n];
    } else {
      assert modules[..m] == modules;
      assert modules[m..] == [];
    }
  }

  // ---------------------------------------------------------------------------
  // An independent description of the result: per binding, the declarations
  // made at it; per pipeline, the push-constant declarations.
  // ---------------------------------------------------------------------------

  predicate DeclaresBinding(e: ResourceEvent, key: nat) {
    !e.PushConstantDeclared? && DeclaredBinding(e) == key
  }

  /** The uniform and sampler declarations made at `key`, in visiting order. */
  function Declarations(events: seq<ResourceEvent>, key: nat): (ds: seq<ResourceEvent>)
    ensures forall i :: 0 <= i < |ds| ==> DeclaresBinding(ds[i], key)
  {
    if |events| == 0 then []
    else
      var rest := Declarations(events[..|events| - 1], key);
      if DeclaresBinding(events[|events| - 1], key) then rest + [events[|events| - 1]] else rest
  }

  /** The bitwise or of the declaring modules' stage bits. */
  function StagesUnion(ds: seq<ResourceEvent>): bv32 {
    if |ds| == 0 then 0 else StagesUnion(ds[..|ds| - 1]) | StageBits(ds[|ds| - 1].stage)
  }

  /** What the map holds at a binding declared by `ds`: nothing if `ds` is
      empty; otherwise the size and type of the first declaration and the
      stages of all of them. */
  function FromDeclarations(ds: seq<ResourceEvent>, alignment: nat): Option<BindingData>
    requires alignment > 0
    requires forall i :: 0 <= i < |ds| ==> !ds[i].PushConstantDeclared?
  {
    if |ds| == 0 then None else Some(DeclaredData(ds[0], alignment).(shaderStages := StagesUnion(ds)))
  }

  function ExpectedBinding(events: seq<ResourceEvent>, key: nat, alignment: nat): Option<BindingData>
    requires alignment > 0
  {
    FromDeclarations(Declarations(events, key), alignment)
  }

  lemma FromDeclarationsSnoc(ds: seq<ResourceEvent>, e: ResourceEvent, alignment: nat)
    requires alignment > 0
    requires forall i :: 0 <= i < |ds| ==> !ds[i].PushConstantDeclared?
    requires !e.PushConstantDeclared?
    ensures FromDeclarations(ds + [e], alignment) == Some(Merged(FromDeclarations(ds, alignment), DeclaredData(e, alignment)))
  {
    var ds' := ds + [e];
    StagesUnionSnoc(ds, e);
    DeclaredStages(e, alignment);
    if |ds| == 0 {
      FirstDeclaration(ds', e, alignment);
    } else {
      LaterDeclaration(ds, ds', e, alignment);
      MergeIntoEntry(DeclaredData(ds[0], alignment), StagesUnion(ds), StagesUnion(ds'), DeclaredData(e, alignment));
    }
  }

  lemma StagesUnionSnoc(ds: seq<ResourceEvent>, e: ResourceEvent)
    ensures StagesUnion(ds + [e]) == StagesUnion(ds) | StageBits(e.stage)
  {
    assert (ds + [e])[..|ds|] == ds;
  }

  lemma DeclaredStages(e: ResourceEvent, alignment: nat)
    requires alignment > 0
    requires !e.PushConstantDeclared?
    ensures DeclaredData(e, alignment).shaderStages == StageBits(e.stage)
  {
  }

  lemma FirstDeclaration(ds': seq<ResourceEvent>, e: ResourceEvent, alignment: nat)
    requires alignment > 0
    requires !e.PushConstantDeclared?
    requires ds' == [e]
    requires StagesUnion(ds') == 0 | DeclaredData(e, alignment).shaderStages
    ensures FromDeclarations(ds', alignment) == Some(DeclaredData(e, alignment))
  {
    var d := DeclaredData(e, alignment);
    assert StagesUnion(ds') == d.shaderStages;
    assert d.(shaderStages := StagesUnion(ds')) == d;
  }

  lemma LaterDeclaration(ds: seq<ResourceEvent>, ds': seq<ResourceEvent>, e: ResourceEvent, alignment: nat)
    requires alignment > 0
    requires |ds| > 0
    requires forall i :: 0 <= i < |ds| ==> !ds[i].PushConstantDeclared?
    requires !e.PushConstantDeclared?
    requires ds' == ds + [e]
    ensures FromDeclarations(ds', alignment) == Some(DeclaredData(ds[0], alignment).(shaderStages := StagesUnion(ds')))
  {
    assert ds'[0] == ds[0];
  }

  /** Merging into an entry ORs the new stage bits into its mask and keeps
      the rest of it. */
  lemma MergeIntoEntry(first: BindingData, before: bv32, after: bv32, d: BindingData)
    requires after == before | d.shaderStages
    ensures Some(first.(shaderStages := after)) == Some(Merged(Some(first.(shaderStages := before)), d))
  {
  }

  /** One more declaration changes the expected entry the way a merge does. */
  lemma ExpectedBindingSnoc(events: seq<ResourceEvent>, key: nat, alignment: nat)
    requires alignment > 0
    requires |events| > 0
    ensures var p := events[..|events| - 1];
            var e := events[|events| - 1];
            ExpectedBinding(events, key, alignment) ==
              if DeclaresBinding(e, key) then Some(Merged(ExpectedBinding(p, key, alignment), DeclaredData(e, alignment)))
              else ExpectedBinding(p, key, alignment)
  {
    var e := events[|events| - 1];
    if DeclaresBinding(e, key) {
      FromDeclarationsSnoc(Declarations(events[..|events| - 1], key), e, alignment);
    }
  }

  /** One iteration changes the map only at the binding it declares. */
  lemma StepBindings(st: LayoutState, e: ResourceEvent, key: nat, alignment: nat, maxPushConstantSize: nat)
    requires alignment > 0
    requires KeysAscending(st.bindings)
    requires Step(st, e, alignment, maxPushConstantSize).Ok?
    ensures Lookup(Step(st, e, alignment, maxPushConstantSize).value.bindings, key) ==
              if DeclaresBinding(e, key) then Some(Merged(Lookup(st.bindings, key), DeclaredData(e, alignment)))
              else Lookup(st.bindings, key)
  {
  }

  /** The map InitialiseDescriptorSetLayouts builds has an entry exactly at
      the bound binding numbers; the entry takes its size and descriptor type
      from the first resource declared there and or-s together the stages of
      every module that declares it. */
  lemma {:induction false} FoldBindings(events: seq<ResourceEvent>, key: nat, alignment: nat, maxPushConstantSize: nat)
    requires alignment > 0
    requires Fold(events, alignment, maxPushConstantSize).Ok?
    ensures Lookup(Fold(events, alignment, maxPushConstantSize).value.bindings, key) == ExpectedBinding(events, key, alignment)
  {
    if |events| > 0 {
      var p := events[..|events| - 1];
      FoldBindings(p, key, alignment, maxPushConstantSize);
      StepBindings(Fold(p, alignment, maxPushConstantSize).value, events[|events| - 1], key, alignment, maxPushConstantSize);
      ExpectedBindingSnoc(events, key, alignment);
    }
  }

  function PushConstantDeclarations(events: seq<ResourceEvent>): (ps: seq<ResourceEvent>)
    ensures forall i :: 0 <= i < |ps| ==> ps[i].PushConstantDeclared?
  {
    if |events| == 0 then []
    else
      var rest := PushConstantDeclarations(events[..|events| - 1]);
      if events[|events| - 1].PushConstantDeclared? then rest + [events[|events| - 1]] else rest
  }

  /** Every shader module has a stage (Config::shaderInfo never carries Stage::None). */
  predicate NamedStages(events: seq<ResourceEvent>) {
    forall i :: 0 <= i < |events| ==> events[i].stage != StageNone
  }

  lemma NamedStagesPrefix(events: seq<ResourceEvent>)
    requires |events| > 0 && NamedStages(events)
    ensures NamedStages(events[..|events| - 1]) && events[|events| - 1].stage != StageNone
  {
    assert forall i :: 0 <= i < |events| - 1 ==> events[..|events| - 1][i] == events[i];
  }

  /** The push-constant range is empty when no module declares a block;
      otherwise its size is that of the first block (cast to uint32), its
      offset is 0, and its stage flags are those of the last declaring module
      alone: a later module overwrites the flags instead of adding to them. */
  lemma {:induction false} FoldPushConstantRange(events: seq<ResourceEvent>, alignment: nat, maxPushConstantSize: nat)
    requires alignment > 0
    requires NamedStages(events)
    requires Fold(events, alignment, maxPushConstantSize).Ok?
    ensures var ps := PushConstantDeclarations(events);
            Fold(events, alignment, maxPushConstantSize).value.pushConstantRange ==
              if |ps| == 0 then PushConstantRange(0, 0, 0)
              else PushConstantRange(StageBits(ps[|ps| - 1].stage), 0, WrapU32(ps[0].pushConstant.declaredSize))
  {
    if |events| > 0 {
      var n := |events| - 1;
      var p := events[..n];
      var e := events[n];
      NamedStagesPrefix(events);
      FoldPushConstantRange(p, alignment, maxPushConstantSize);
      var ps := PushConstantDeclarations(p);
      if e.PushConstantDeclared? {
        assert PushConstantDeclarations(events) == ps + [e];
        if |ps| > 0 {
          assert ps[|ps| - 1].stage != StageNone by {
            PushConstantDeclarationsNamed(p);
          }
          assert (ps + [e])[0] == ps[0];
        }
      }
    }
  }

  lemma {:induction false} PushConstantDeclarationsNamed(events: seq<ResourceEvent>)
    requires NamedStages(events)
    ensures NamedStages(PushConstantDeclarations(events))
  {
    if |events| > 0 {
      NamedStagesPrefix(events);
      PushConstantDeclarationsNamed(events[..|events| - 1]);
    }
  }

  /** Every uniform buffer and sampled image is in descriptor set 0. */
  predicate AllInSetZero(events: seq<ResourceEvent>) {
    forall i :: 0 <= i < |events| && !events[i].PushConstantDeclared? ==> DeclaredSet(events[i]) == 0
  }

  lemma AllInSetZeroPrefix(events: seq<ResourceEvent>)
    requires |events| > 0
    ensures AllInSetZero(events) <==>
            AllInSetZero(events[..|events| - 1])
            && (events[|events| - 1].PushConstantDeclared? || DeclaredSet(events[|events| - 1]) == 0)
  {
    assert forall i :: 0 <= i < |events| - 1 ==> events[..|events| - 1][i] == events[i];
  }

  /** The first push-constant block fits the device limit; later blocks are
      not checked. */
  predicate FirstPushConstantFits(events: seq<ResourceEvent>, maxPushConstantSize: nat) {
    var ps := PushConstantDeclarations(events);
    |ps| == 0 || WrapU32(ps[0].pushConstant.declaredSize) <= maxPushConstantSize
  }

  /** InitialiseDescriptorSetLayouts throws exactly when some uniform buffer
      or sampled image lies outside descriptor set 0, or the first
      push-constant block exceeds maxPushConstantsSize. */
  lemma {:induction false} FoldSucceeds(events: seq<ResourceEvent>, alignment: nat, maxPushConstantSize: nat)
    requires alignment > 0
    requires NamedStages(events)
    ensures Fold(events, alignment, maxPushConstantSize).Ok? <==>
            AllInSetZero(events) && FirstPushConstantFits(events, maxPushConstantSize)
  {
    if |events| > 0 {
      var n := |events| - 1;
      var p := events[..n];
      var e := events[n];
      NamedStagesPrefix(events);
      FoldSucceeds(p, alignment, maxPushConstantSize);
      AllInSetZeroPrefix(events);
      var ps := PushConstantDeclarations(p);
      if e.PushConstantDeclared? {
        assert PushConstantDeclarations(events) == ps + [e];
        if |ps| > 0 {
          assert (ps + [e])[0] == ps[0];
        }
        if Fold(p, alignment, maxPushConstantSize).Ok? {
          FoldPushConstantRange(p, alignment, maxPushConstantSize);
          if |ps| > 0 {
            PushConstantDeclarationsNamed(p);
            assert ps[|ps| - 1].stage != StageNone;
          }
        }
      }
    }
  }

  // ---------------------------------------------------------------------------
  // The loops of InitialiseDescriptorSetLayouts.
  // ---------------------------------------------------------------------------

  /** Finishing module m's loops is folding its declarations after those of the earlier modules. */
  lemma ModuleCompletes(modules: seq<ShaderModuleInfo>, m: nat, st0: LayoutState, alignment: nat, maxPushConstantSize: nat)
    requires alignment > 0
    requires m < |modules|
    requires Fold(AllEvents(modules[..m]), alignment, maxPushConstantSize) == Ok(st0)
    ensures Fold(AllEvents(modules[..m + 1]), alignment, maxPushConstantSize)
            == FoldFrom(st0, ModuleEvents(modules[m]), alignment, maxPushConstantSize)
  {
    assert modules[..m + 1][..m] == modules[..m];
    FoldFromAppend(EmptyLayout, AllEvents(modules[..m]), ModuleEvents(modules[m]), alignment, maxPushConstantSize);
  }

  /** A throw inside module m's loops aborts the whole reflection. */
  lemma ModuleThrowAborts(modules: seq<ShaderModuleInfo>, m: nat, st0: LayoutState, alignment: nat, maxPushConstantSize: nat)
    requires alignment > 0
    requires m < |modules|
    requires Fold(AllEvents(modules[..m]), alignment, maxPushConstantSize) == Ok(st0)
    requires FoldFrom(st0, ModuleEvents(modules[m]), alignment, maxPushConstantSize).Err?
    ensures Fold(AllEvents(modules), alignment, maxPushConstantSize) == FoldFrom(st0, ModuleEvents(modules[m]), alignment, maxPushConstantSize)
  {
    ModuleCompletes(modules, m, st0, alignment, maxPushConstantSize);
    AllEventsSplit(modules, m + 1);
    FoldFromAppend(EmptyLayout, AllEvents(modules[..m + 1]), AllEvents(modules[m + 1..]), alignment, maxPushConstantSize);
  }

  /** One more declaration inside a module's loops. */
  lemma FoldFromSnoc(st: LayoutState, done: seq<ResourceEvent>, e: ResourceEvent, alignment: nat, maxPushConstantSize: nat)
    requires alignment > 0
    requires KeysAscending(st.bindings)
    requires FoldFrom(st, done, alignment, maxPushConstantSize).Ok?
    ensures FoldFrom(st, done + [e], alignment, maxPushConstantSize)
            == Step(FoldFrom(st, done, alignment, maxPushConstantSize).value, e, alignment, maxPushConstantSize)
  {
    assert (done + [e])[..|done|] == done;
  }

  /** A throw part-way through a run of declarations is the result of the whole run. */
  lemma FoldFromThrowAborts(st: LayoutState, events: seq<ResourceEvent>, k: nat, alignment: nat, maxPushConstantSize: nat)
    requires alignment > 0
    requires KeysAscending(st.bindings)
    requires k <= |events|
    requires FoldFrom(st, events[..k], alignment, maxPushConstantSize).Err?
    ensures FoldFrom(st, events, alignment, maxPushConstantSize) == FoldFrom(st, events[..k], alignment, maxPushConstantSize)
  {
    FoldFromAppend(st, events[..k], events[k..], alignment, maxPushConstantSize);
    assert events[..k] + events[k..] == events;
  }

  /** The uniform-buffer loop of one module. */
  method ReflectUniformBuffers(st0: LayoutState, shader: ShaderModuleInfo, alignment: nat, maxPushConstantSize: nat)
    returns (r: Result<LayoutState, PipelineError>)
    requires alignment > 0
    requires KeysAscending(st0.bindings)
    ensures r == FoldFrom(st0, UniformEvents(shader), alignment, maxPushConstantSize)
  {
    ghost var us := UniformEvents(shader);
    var st := st0;
    var k := 0;
    while k < |shader.uniformBuffers|
      invariant 0 <= k <= |shader.uniformBuffers|
      invariant FoldFrom(st0, us[..k], alignment, maxPushConstantSize) == Ok(st)
      decreases |shader.uniformBuffers| - k
    {
      var uniform := shader.uniformBuffers[k];
      FoldFromSnoc(st0, us[..k], us[k], alignment, maxPushConstantSize);
      assert us[..k + 1] == us[..k] + [us[k]];
      if uniform.descriptorSet != 0 {
        FoldFromThrowAborts(st0, us, k + 1, alignment, maxPushConstantSize);
        return Err(NonZeroDescriptorSet);
      }
      var size := WrapU32(PaddedUniformSize(uniform.declaredSize, alignment));
      st := st.(bindings := MergeBinding(st.bindings, uniform.binding,
                                         BindingData(Some(size), UniformBufferDescriptor, StageBits(shader.stage))));
      k := k + 1;
    }
    assert us[..k] == us;
    r := Ok(st);
  }

  /** The sampled-image loop of one module. */
  method ReflectSampledImages(st0: LayoutState, shader: ShaderModuleInfo, alignment: nat, maxPushConstantSize: nat)
    returns (r: Result<LayoutState, PipelineError>)
    requires alignment > 0
    requires KeysAscending(st0.bindings)
    ensures r == FoldFrom(st0, SamplerEvents(shader), alignment, maxPushConstantSize)
  {
    ghost var ss := SamplerEvents(shader);
    var st := st0;
    var k := 0;
    while k < |shader.sampledImages|
      invariant 0 <= k <= |shader.sampledImages|
      invariant FoldFrom(st0, ss[..k], alignment, maxPushConstantSize) == Ok(st)
      decreases |shader.sampledImages| - k
    {
      var sampler := shader.sampledImages[k];
      FoldFromSnoc(st0, ss[..k], ss[k], alignment, maxPushConstantSize);
      assert ss[..k + 1] == ss[..k] + [ss[k]];
      if sampler.descriptorSet != 0 {
        FoldFromThrowAborts(st0, ss, k + 1, alignment, maxPushConstantSize);
        return Err(NonZeroDescriptorSet);
      }
      st := st.(bindings := MergeBinding(st.bindings, sampler.binding,
                                         BindingData(None, CombinedImageSampler, StageBits(shader.stage))));
      k := k + 1;
    }
    assert ss[..k] == ss;
    r := Ok(st);
  }

  /** The push-constant loop of one module. */
  method ReflectPushConstants(st0: LayoutState, shader: ShaderModuleInfo, alignment: nat, maxPushConstantSize: nat)
    returns (r: Result<LayoutState, PipelineError>)
    requires alignment > 0
    requires KeysAscending(st0.bindings)
    ensures r == FoldFrom(st0, PushConstantEvents(shader), alignment, maxPushConstantSize)
  {
    ghost var ps := PushConstantEvents(shader);
    var st := st0;
    var k := 0;
    while k < |shader.pushConstantBuffers|
      invariant 0 <= k <= |shader.pushConstantBuffers|
      invariant FoldFrom(st0, ps[..k], alignment, maxPushConstantSize) == Ok(st)
      decreases |shader.pushConstantBuffers| - k
    {
      var pushConstant := shader.pushConstantBuffers[k];
      FoldFromSnoc(st0, ps[..k], ps[k], alignment, maxPushConstantSize);
      assert ps[..k + 1] == ps[..k] + [ps[k]];
      if st.pushConstantRange.stageFlags == 0 {
        var range := PushConstantRange(StageBits(shader.stage), 0, WrapU32(pushConstant.declaredSize));
        if range.size > maxPushConstantSize {
          FoldFromThrowAborts(st0, ps, k + 1, alignment, maxPushConstantSize);
          return Err(PushConstantBufferTooLarge);
        }
        st := st.(pushConstantRange := range);
      } else {
        st := st.(pushConstantRange := st.pushConstantRange.(stageFlags := StageBits(shader.stage)));
      }
      k := k + 1;
    }
    assert ps[..k] == ps;
    r := Ok(st);
  }

  /** InitialiseDescriptorSetLayouts, the reflection loops: visit every
      module's uniform buffers, sampled images and push-constant blocks in
      order, merging bindings into the map and setting the push-constant
      range, and throw on a non-zero descriptor set or an oversized first
      push-constant block. */
  method ReflectDescriptorBindings(modules: seq<ShaderModuleInfo>, alignment: nat, maxPushConstantSize: nat)
    returns (r: Result<LayoutState, PipelineError>)
    requires alignment > 0
    ensures r == Fold(AllEvents(modules), alignment, maxPushConstantSize)
  {
    var st := EmptyLayout;
    var m := 0;
    while m < |modules|
      invariant 0 <= m <= |modules|
      invariant Fold(AllEvents(modules[..m]), alignment, maxPushConstantSize) == Ok(st)
      decreases |modules| - m
    {
      var shader := modules[m];
      ghost var us := UniformEvents(shader);
      ghost var ss := SamplerEvents(shader);
      ghost var ps := PushConstantEvents(shader);
      FoldFromAppend(st, us + ss, ps, alignment, maxPushConstantSize);
      FoldFromAppend(st, us, ss, alignment, maxPushConstantSize);

      var afterUniforms := ReflectUniformBuffers(st, shader, alignment, maxPushConstantSize);
      if afterUniforms.Err? {
        ModuleThrowAborts(modules, m, st, alignment, maxPushConstantSize);
        return Err(afterUniforms.error);
      }
      var afterSamplers := ReflectSampledImages(afterUniforms.value, shader, alignment, maxPushConstantSize);
      if afterSamplers.Err? {
        ModuleThrowAborts(modules, m, st, alignment, maxPushConstantSize);
        return Err(afterSamplers.error);
      }
      var afterPushConstants := ReflectPushConstants(afterSamplers.value, shader, alignment, maxPushConstantSize);
      if afterPushConstants.Err? {
        ModuleThrowAborts(modules, m, st, alignment, maxPushConstantSize);
        return Err(afterPushConstants.error);
      }
      ModuleCompletes(modules, m, st, alignment, maxPushConstantSize);
      st := afterPushConstants.value;
      m := m + 1;
    }
    assert modules[..m] == modules;
    r := Ok(st);
  }

  // ---------------------------------------------------------------------------
  // What is derived from the finished map.
  // ---------------------------------------------------------------------------

  /** Uniform-buffer entries carry a size and sampler entries do not. */
  predicate SizedExactlyWhenUniform(b: seq<BindingEntry>) {
    forall i :: 0 <= i < |b| ==> (b[i].data.descriptorType == UniformBufferDescriptor <==> b[i].data.size.Some?)
  }

  lemma {:induction false} LookupFindsEntry(b: seq<BindingEntry>, i: nat)
    requires KeysAscending(b)
    requires i < |b|
    ensures Lookup(b, b[i].binding) == Some(b[i].data)
  {
    if i > 0 {
      assert b[1..][i - 1] == b[i];
      LookupFindsEntry(b[1..], i - 1);
    }
  }

  /** Every entry of the reflected map is a sized uniform buffer or an unsized
      sampler, so reading `size.value()` of a non-sampler entry never throws. */
  lemma FoldSizedExactlyWhenUniform(events: seq<ResourceEvent>, alignment: nat, maxPushConstantSize: nat)
    requires alignment > 0
    requires Fold(events, alignment, maxPushConstantSize).Ok?
    ensures SizedExactlyWhenUniform(Fold(events, alignment, maxPushConstantSize).value.bindings)
  {
    var b := Fold(events, alignment, maxPushConstantSize).value.bindings;
    forall i | 0 <= i < |b|
      ensures b[i].data.descriptorType == UniformBufferDescriptor <==> b[i].data.size.Some?
    {
      LookupFindsEntry(b, i);
      FoldBindings(events, b[i].binding, alignment, maxPushConstantSize);
    }
  }

  /** VkDescriptorSetLayoutBinding. */
  datatype LayoutBinding = LayoutBinding(binding: nat, descriptorType: DescriptorType, descriptorCount: nat, stageFlags: bv32)

  /** Number of map entries of a descriptor type. */
  function CountOfType(b: seq<BindingEntry>, t: DescriptorType): nat {
    if |b| == 0 then 0
    else CountOfType(b[..|b| - 1], t) + (if b[|b| - 1].data.descriptorType == t then 1 else 0)
  }

  /** Every map entry is counted under exactly one of the two descriptor types. */
  lemma {:induction false} CountsCoverBindings(b: seq<BindingEntry>)
    ensures CountOfType(b, UniformBufferDescriptor) + CountOfType(b, CombinedImageSampler) == |b|
  {
    if |b| > 0 {
      CountsCoverBindings(b[..|b| - 1]);
    }
  }

  /** The loop after the reflection loops of InitialiseDescriptorSetLayouts:
      one layout binding per map entry in key order, with a descriptor count of
      1, and a per-type tally of the entries. */
  method BuildLayoutBindings(b: seq<BindingEntry>) returns (layout: seq<LayoutBinding>, typeCounts: map<DescriptorType, nat>)
    ensures |layout| == |b|
    ensures forall i :: 0 <= i < |b| ==>
              layout[i] == LayoutBinding(b[i].binding, b[i].data.descriptorType, 1, b[i].data.shaderStages)
    ensures forall t :: t in typeCounts <==> CountOfType(b, t) > 0
    ensures forall t :: t in typeCounts ==> typeCounts[t] == CountOfType(b, t)
  {
    layout := [];
    typeCounts := map[];
    var i := 0;
    while i < |b|
      invariant 0 <= i <= |b|
      invariant |layout| == i
      invariant forall j :: 0 <= j < i ==>
                  layout[j] == LayoutBinding(b[j].binding, b[j].data.descriptorType, 1, b[j].data.shaderStages)
      invariant forall t :: t in typeCounts <==> CountOfType(b[..i], t) > 0
      invariant forall t :: t in typeCounts ==> typeCounts[t] == CountOfType(b[..i], t)
      decreases |b| - i
    {
      var data := b[i].data;
      layout := layout + [LayoutBinding(b[i].binding, data.descriptorType, 1, data.shaderStages)];
      if data.descriptorType !in typeCounts {
        typeCounts := typeCounts[data.descriptorType := 0];
      }
      typeCounts := typeCounts[data.descriptorType := typeCounts[data.descriptorType] + 1];
      assert b[..i + 1][..i] == b[..i];
      i := i + 1;
    }
    assert b[..i] == b;
  }

  /** The bytes a map entry takes in a frame's uniform buffer: its size if it
      is a uniform buffer, nothing if it is a sampler. */
  function UniformSize(e: BindingEntry): nat {
    if e.data.descriptorType == CombinedImageSampler then 0
    else match e.data.size
      case Some(size) => size
      case None => 0
  }

  /** The size InitialiseUniformBuffers gives each frame's uniform buffer. */
  function UniformBufferSize(b: seq<BindingEntry>): nat {
    if |b| == 0 then 0 else UniformBufferSize(b[..|b| - 1]) + UniformSize(b[|b| - 1])
  }

  /** The size loop of InitialiseUniformBuffers: skip samplers, add every
      other entry's size. */
  method ComputeUniformBufferSize(b: seq<BindingEntry>) returns (size: nat)
    requires SizedExactlyWhenUniform(b)
    ensures size == UniformBufferSize(b)
  {
    size := 0;
    var i := 0;
    while i < |b|
      invariant 0 <= i <= |b|
      invariant size == UniformBufferSize(b[..i])
      decreases |b| - i
    {
      assert b[..i + 1][..i] == b[..i];
      if b[i].data.descriptorType == CombinedImageSampler {
        i := i + 1;
        continue;
      }
      size := size + b[i].data.size.value;
      i := i + 1;
    }
    assert b[..i] == b;
  }

  /** Where binding b[k] starts in a frame's uniform buffer: after the uniform
      entries of lower binding number. */
  function UniformOffset(b: seq<BindingEntry>, k: nat): nat
    requires k <= |b|
  {
    UniformBufferSize(b[..k])
  }

  lemma {:induction false} UniformBufferSizeMonotone(b: seq<BindingEntry>, i: nat, j: nat)
    requires i <= j <= |b|
    ensures UniformBufferSize(b[..i]) <= UniformBufferSize(b[..j])
    decreases j - i
  {
    if i < j {
      UniformBufferSizeMonotone(b, i, j - 1);
      assert b[..j][..j - 1] == b[..j - 1];
    }
  }

  /** Two entries' byte ranges in a frame's uniform buffer do not overlap. */
  lemma UniformRangesDisjoint(b: seq<BindingEntry>, j: nat, k: nat)
    requires j < k < |b|
    ensures UniformOffset(b, j) + UniformSize(b[j]) <= UniformOffset(b, k)
  {
    assert b[..j + 1][..j] == b[..j];
    UniformBufferSizeMonotone(b, j + 1, k);
  }

  /** Every entry's byte range lies inside the frame's uniform buffer. */
  lemma UniformRangeWithinBuffer(b: seq<BindingEntry>, k: nat)
    requires k < |b|
    ensures UniformOffset(b, k) + UniformSize(b[k]) <= UniformBufferSize(b)
  {
    assert b[..k + 1][..k] == b[..k];
    UniformBufferSizeMonotone(b, k + 1, |b|);
    assert b[..|b|] == b;
  }

  /** VkWriteDescriptorSet with its buffer or image info: a uniform entry
      points at its range of the frame's uniform buffer, a sampler entry at a
      null image view and sampler in SHADER_READ_ONLY_OPTIMAL layout. */
  datatype DescriptorWrite =
    | BufferWrite(descriptorSet: nat, binding: nat, buffer: nat, offset: nat, range: nat)
    | ImageWrite(descriptorSet: nat, binding: nat, imageLayout: ImageLayout, imageView: Handle, sampler: Handle)

  function WriteFor(image: nat, e: BindingEntry, offset: nat): DescriptorWrite {
    if e.data.descriptorType == UniformBufferDescriptor then BufferWrite(image, e.binding, image, offset, UniformSize(e))
    else ImageWrite(image, e.binding, LayoutShaderReadOnlyOptimal, NullHandle, NullHandle)
  }

  /** The update loops of InitialiseDescriptorSets: for each swapchain image,
      one write per map entry in key order, the offset running over the
      uniform entries and starting again at 0 for the next image. */
  method DescriptorWrites(b: seq<BindingEntry>, imageCount: nat) returns (writes: seq<seq<DescriptorWrite>>)
    requires SizedExactlyWhenUniform(b)
    ensures |writes| == imageCount
    ensures forall i :: 0 <= i < imageCount ==> |writes[i]| == |b|
    ensures forall i, k :: 0 <= i < imageCount && 0 <= k < |b| ==> writes[i][k] == WriteFor(i, b[k], UniformOffset(b, k))
  {
    writes := [];
    var currentOffset := 0;
    var i := 0;
    while i < imageCount
      invariant 0 <= i <= imageCount
      invariant |writes| == i
      invariant currentOffset == 0
      invariant forall i' :: 0 <= i' < i ==> |writes[i']| == |b|
      invariant forall i', k :: 0 <= i' < i && 0 <= k < |b| ==> writes[i'][k] == WriteFor(i', b[k], UniformOffset(b, k))
      decreases imageCount - i
    {
      var imageWrites: seq<DescriptorWrite> := [];
      var k := 0;
      while k < |b|
        invariant 0 <= k <= |b|
        invariant |imageWrites| == k
        invariant currentOffset == UniformBufferSize(b[..k])
        invariant forall k' :: 0 <= k' < k ==> imageWrites[k'] == WriteFor(i, b[k'], UniformOffset(b, k'))
        decreases |b| - k
      {
        var entry := b[k];
        var write: DescriptorWrite;
        assert b[..k + 1][..k] == b[..k];
        if entry.data.descriptorType == UniformBufferDescriptor {
          write := BufferWrite(i, entry.binding, i, currentOffset, entry.data.size.value);
          currentOffset := currentOffset + entry.data.size.value;
        } else {
          write := ImageWrite(i, entry.binding, LayoutShaderReadOnlyOptimal, NullHandle, NullHandle);
        }
        imageWrites := imageWrites + [write];
        k := k + 1;
      }
      writes := writes + [imageWrites];
      currentOffset := 0;
      i := i + 1;
    }
  }

  // ---------------------------------------------------------------------------
  // The byte range SetUniform writes.
  // ---------------------------------------------------------------------------

  /** The position of `target` in the map, found by walking it in key order. */
  function IndexOfBinding(b: seq<BindingEntry>, target: nat): (r: Option<nat>)
    ensures r.Some? ==> r.value < |b| && b[r.value].binding == target
                        && forall j :: 0 <= j < r.value ==> b[j].binding != target
    ensures r.None? ==> forall j :: 0 <= j < |b| ==> b[j].binding != target
  {
    if |b| == 0 then None
    else if b[0].binding == target then Some(0)
    else
      match IndexOfBinding(b[1..], target)
      case None => None
      case Some(k) => Some(k + 1)
  }

  /** The (offset, size) SetUniformBufferData hands to the uniform buffer, as
      the loop is evidently meant to compute it: the offset of the target's
      range as InitialiseDescriptorSets laid it out, and its size; a sampler
      target has no size and throws; an unknown binding writes nothing at the
      end of the buffer. */
  function UniformWriteRange(b: seq<BindingEntry>, target: nat): (r: Result<(nat, nat), PipelineError>)
    ensures r.Err? <==> IndexOfBinding(b, target).Some? && b[IndexOfBinding(b, target).value].data.descriptorType == CombinedImageSampler
    ensures r.Err? ==> r.error == BadOptionalAccess
    ensures IndexOfBinding(b, target).None? ==> r == Ok((UniformBufferSize(b), 0))
    ensures r.Ok? ==> r.value.0 + r.value.1 <= UniformBufferSize(b)
  {
    match IndexOfBinding(b, target)
    case None =>
      Ok((UniformBufferSize(b), 0))
    case Some(k) =>
      if b[k].data.descriptorType == CombinedImageSampler then Err(BadOptionalAccess)
      else
        UniformRangeWithinBuffer(b, k);
        Ok((UniformOffset(b, k), UniformSize(b[k])))
  }

  /** The offset loop of SetUniformBufferData as it is evidently meant:
      lower bindings add their size only when they are uniform buffers, and
      the target's own size ends the loop; a sampler target throws. */
  method FindUniformWriteRange(b: seq<BindingEntry>, target: nat) returns (r: Result<(nat, nat), PipelineError>)
    requires SizedExactlyWhenUniform(b)
    ensures r == UniformWriteRange(b, target)
  {
    var offset: nat := 0;
    var size: nat := 0;
    var i := 0;
    while i < |b|
      invariant 0 <= i <= |b|
      invariant offset == UniformBufferSize(b[..i])
      invariant forall j :: 0 <= j < i ==> b[j].binding != target
      decreases |b| - i
    {
      var entry := b[i];
      if entry.binding == target {
        if entry.data.descriptorType == CombinedImageSampler {
          assert IndexOfBinding(b, target) == Some(i);
          return Err(BadOptionalAccess);
        }
        size := entry.data.size.value;
        break;
      }
      assert b[..i + 1][..i] == b[..i];
      if entry.data.descriptorType != CombinedImageSampler {
        offset := offset + entry.data.size.value;
      }
      i := i + 1;
    }
    if i == |b| {
      assert b[..i] == b;
    } else {
      assert IndexOfBinding(b, target) == Some(i);
    }
    return Ok((offset, size));
  }

  /** SetUniform writes exactly the range the frame's descriptor set points
      the binding at. */
  lemma UniformWriteRangeMatchesDescriptor(b: seq<BindingEntry>, k: nat, image: nat)
    requires KeysAscending(b)
    requires k < |b|
    requires b[k].data.descriptorType == UniformBufferDescriptor
    ensures var w := WriteFor(image, b[k], UniformOffset(b, k));
            UniformWriteRange(b, b[k].binding) == Ok((w.offset, w.range))
  {
  }

  /** The loop of SetUniformBufferData as written: every entry before the
      target adds `size.value()`, which throws for a sampler entry. */
  function UniformWriteRangeFrom(b: seq<BindingEntry>, target: nat, offset: nat): Result<(nat, nat), PipelineError> {
    if |b| == 0 then Ok((offset, 0))
    else if b[0].binding == target then
      match b[0].data.size
      case None => Err(BadOptionalAccess)
      case Some(size) => Ok((offset, size))
    else
      match b[0].data.size
      case None => Err(BadOptionalAccess)
      case Some(size) => UniformWriteRangeFrom(b[1..], target, offset + size)
  }

  function UniformWriteRangeAsWritten(b: seq<BindingEntry>, target: nat): Result<(nat, nat), PipelineError> {
    UniformWriteRangeFrom(b, target, 0)
  }

  /** Where the loop of SetUniformBufferData stops: at the target, or at the end. */
  function StopIndex(b: seq<BindingEntry>, target: nat): nat {
    match IndexOfBinding(b, target)
    case Some(k) => k
    case None => |b|
  }

  predicate SamplerBefore(b: seq<BindingEntry>, stop: nat) {
    exists j :: 0 <= j < stop && j < |b| && b[j].data.descriptorType == CombinedImageSampler
  }

  lemma {:induction false} UniformWriteRangeFromAgrees(b: seq<BindingEntry>, target: nat, j: nat)
    requires SizedExactlyWhenUniform(b)
    requires j <= StopIndex(b, target)
    requires !SamplerBefore(b, StopIndex(b, target))
    ensures UniformWriteRangeFrom(b[j..], target, UniformOffset(b, j)) == UniformWriteRange(b, target)
    decreases |b| - j
  {
    var stop := StopIndex(b, target);
    if j == |b| {
      assert b[..j] == b;
    } else if j == stop {
      assert b[j..][0] == b[j];
    } else {
      assert b[j].binding != target;
      assert b[j].data.descriptorType == UniformBufferDescriptor;
      assert b[j..][0] == b[j];
      assert b[j..][1..] == b[j + 1..];
      assert b[..j + 1][..j] == b[..j];
      UniformWriteRangeFromAgrees(b, target, j + 1);
    }
  }

  lemma {:induction false} UniformWriteRangeFromThrows(b: seq<BindingEntry>, target: nat, j: nat, offset: nat)
    requires SizedExactlyWhenUniform(b)
    requires j <= StopIndex(b, target)
    requires exists s :: j <= s < StopIndex(b, target) && b[s].data.descriptorType == CombinedImageSampler
    ensures UniformWriteRangeFrom(b[j..], target, offset) == Err(BadOptionalAccess)
    decreases |b| - j
  {
    var s :| j <= s < StopIndex(b, target) && b[s].data.descriptorType == CombinedImageSampler;
    assert b[j..][0] == b[j];
    assert b[j].binding != target;
    if b[j].data.descriptorType == UniformBufferDescriptor {
      assert b[j..][1..] == b[j + 1..];
      UniformWriteRangeFromThrows(b, target, j + 1, offset + b[j].data.size.value);
    }
  }

  /** SetUniformBufferData as written agrees with the intended range exactly
      when no sampler binding precedes the target in key order; otherwise it
      throws std::bad_optional_access. */
  lemma UniformWriteRangeAsWrittenCharacterised(b: seq<BindingEntry>, target: nat)
    requires SizedExactlyWhenUniform(b)
    ensures !SamplerBefore(b, StopIndex(b, target)) ==> UniformWriteRangeAsWritten(b, target) == UniformWriteRange(b, target)
    ensures SamplerBefore(b, StopIndex(b, target)) ==> UniformWriteRangeAsWritten(b, target) == Err(BadOptionalAccess)
  {
    assert b[0..] == b;
    if SamplerBefore(b, StopIndex(b, target)) {
      UniformWriteRangeFromThrows(b, target, 0, 0);
    } else {
      assert b[..0] == [];
      UniformWriteRangeFromAgrees(b, target, 0);
    }
  }

  /** A sampler at binding 0 and a 256-byte uniform block at binding 1. */
  function SamplerThenUniform(): seq<BindingEntry> {
    [BindingEntry(0, BindingData(None, CombinedImageSampler, 0x10)),
     BindingEntry(1, BindingData(Some(256), UniformBufferDescriptor, 0x1))]
  }

  /** The descriptor set points binding 1 of SamplerThenUniform at bytes
      [0, 256) of the frame's uniform buffer. */
  lemma SamplerThenUniformDescriptor()
    ensures WriteFor(0, SamplerThenUniform()[1], UniformOffset(SamplerThenUniform(), 1)) == BufferWrite(0, 1, 0, 0, 256)
  {
    var b := SamplerThenUniform();
    assert UniformBufferSize([b[0]]) == 0 by {
      assert [b[0]][..0] == [];
    }
    assert b[..1] == [b[0]];
    assert UniformOffset(b, 1) == 0;
  }

  /** The intended range of binding 1 in a two-entry map whose second
      entry is a 256-byte uniform block at offset 0. */
  lemma SecondBindingWriteRange(b: seq<BindingEntry>)
    requires |b| == 2 && b[0].binding == 0 && b[1].binding == 1
    requires b[1].data.descriptorType == UniformBufferDescriptor && b[1].data.size == Some(256)
    requires UniformOffset(b, 1) == 0
    ensures UniformWriteRange(b, 1) == Ok((0, 256))
  {
    assert b[1..] == [b[1]];
    assert IndexOfBinding(b, 1) == Some(1);
  }

  /** SetUniform(1, ...) on SamplerThenUniform throws as written, where the
      intended loop writes bytes [0, 256), the range the descriptor points at. */
  lemma SamplerBeforeUniformThrows()
    ensures UniformWriteRangeAsWritten(SamplerThenUniform(), 1) == Err(BadOptionalAccess)
    ensures UniformWriteRange(SamplerThenUniform(), 1) == Ok((0, 256))
  {
    var b := SamplerThenUniform();
    assert b[0].binding != 1 && b[0].data.size.None?;
    assert UniformOffset(b, 1) == 0 by {
      assert b[..1] == [b[0]];
      assert [b[0]][..0] == [];
    }
    SecondBindingWriteRange(b);
  }
}
