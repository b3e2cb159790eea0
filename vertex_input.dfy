/** Vertex-input reflection of GraphicsPipeline: the size and format of one
    shader input, the location-ordered set of inputs of the first vertex-stage
    module, and the single per-vertex binding whose attributes are packed one
    after another in location order. */
module VertexInput {
  import opened VkTypes
  import opened ShaderReflection

  /** The six base types a vertex input may have. */
  predicate IsVertexBaseType(b: BaseType) {
    !b.OtherBaseType?
  }

  /** Number of components of a vertex-attribute format (the Vulkan format table). */
  function FormatComponents(f: Format): nat {
    match f
    case R8Uint | R16Sfloat | R32Sint | R32Uint | R32Sfloat | R64Sfloat => 1
    case R8G8Uint | R16G16Sfloat | R32G32Sint | R32G32Uint | R32G32Sfloat | R64G64Sfloat => 2
    case R8G8B8Uint | R16G16B16Sfloat | R32G32B32Sint | R32G32B32Uint | R32G32B32Sfloat | R64G64B64Sfloat => 3
    case R8G8B8A8Uint | R16G16B16A16Sfloat | R32G32B32A32Sint | R32G32B32A32Uint | R32G32B32A32Sfloat | R64G64B64A64Sfloat => 4
    case _ => 0
  }

  /** The numeric class of a vertex-attribute format, named by the shader base type it carries. */
  function FormatBaseType(f: Format): BaseType {
    match f
    case R8Uint | R8G8Uint | R8G8B8Uint | R8G8B8A8Uint => Boolean
    case R16Sfloat | R16G16Sfloat | R16G16B16Sfloat | R16G16B16A16Sfloat => Half
    case R32Sint | R32G32Sint | R32G32B32Sint | R32G32B32A32Sint => Int
    case R32Uint | R32G32Uint | R32G32B32Uint | R32G32B32A32Uint => UInt
    case R32Sfloat | R32G32Sfloat | R32G32B32Sfloat | R32G32B32A32Sfloat => Float
    case R64Sfloat | R64G64Sfloat | R64G64B64Sfloat | R64G64B64A64Sfloat => Double
    case _ => OtherBaseType(0)
  }

  /** Bytes of one element of a vertex-attribute format (the Vulkan format table). */
  function FormatSize(f: Format): nat {
    match f
    case R8Uint => 1
    case R8G8Uint => 2
    case R8G8B8Uint => 3
    case R8G8B8A8Uint => 4
    case R16Sfloat => 2
    case R16G16Sfloat => 4
    case R16G16B16Sfloat => 6
    case R16G16B16A16Sfloat => 8
    case R32Sint | R32Uint | R32Sfloat => 4
    case R32G32Sint | R32G32Uint | R32G32Sfloat => 8
    case R32G32B32Sint | R32G32B32Uint | R32G32B32Sfloat => 12
    case R32G32B32A32Sint | R32G32B32A32Uint | R32G32B32A32Sfloat => 16
    case R64Sfloat => 8
    case R64G64Sfloat => 16
    case R64G64B64Sfloat => 24
    case R64G64B64A64Sfloat => 32
    case _ => 0
  }

  /** The shader types GetVertexInputFormat maps to a format. */
  predicate HasVertexFormat(t: SpirType) {
    1 <= t.vecsize <= 4 && IsVertexBaseType(t.baseType)
  }

  /** GetVertexInputFormat: the format has as many components as the input
      vector and the input's numeric class, and exists exactly for vectors of
      one to four components of the six handled base types. */
  function VertexInputFormat(t: SpirType): (f: Format)
    ensures f != FormatUndefined <==> HasVertexFormat(t)
    ensures f != FormatUndefined ==> FormatComponents(f) == t.vecsize && FormatBaseType(f) == t.baseType
  {
    if t.vecsize < 1 || 4 < t.vecsize then FormatUndefined
    else
      match t.baseType
      case Boolean => [R8Uint, R8G8Uint, R8G8B8Uint, R8G8B8A8Uint][t.vecsize - 1]
      case Half => [R16Sfloat, R16G16Sfloat, R16G16B16Sfloat, R16G16B16A16Sfloat][t.vecsize - 1]
      case Int => [R32Sint, R32G32Sint, R32G32B32Sint, R32G32B32A32Sint][t.vecsize - 1]
      case UInt => [R32Uint, R32G32Uint, R32G32B32Uint, R32G32B32A32Uint][t.vecsize - 1]
      case Float => [R32Sfloat, R32G32Sfloat, R32G32B32Sfloat, R32G32B32A32Sfloat][t.vecsize - 1]
      case Double => [R64Sfloat, R64G64Sfloat, R64G64B64Sfloat, R64G64B64A64Sfloat][t.vecsize - 1]
      case OtherBaseType(_) => FormatUndefined
  }

  /** GetVertexInputSize: vecsize times the component width, as a uint32
      product; 0 for an unhandled base type.  Whenever the input has a format,
      the size is that format's element size. */
  function VertexInputSize(t: SpirType): (size: nat)
    ensures size < U32Modulus
    ensures !IsVertexBaseType(t.baseType) ==> size == 0
    ensures VertexInputFormat(t) != FormatUndefined ==> size == FormatSize(VertexInputFormat(t))
  {
    match t.baseType
    case Boolean => WrapU32(t.vecsize)
    case Half => WrapU32(t.vecsize * 2)
    case Int | UInt | Float => WrapU32(t.vecsize * 4)
    case Double => WrapU32(t.vecsize * 8)
    case OtherBaseType(_) => 0
  }

  /** GraphicsPipeline::VertexInputData; std::set orders it by location alone. */
  datatype VertexInputData = VertexInputData(location: nat, size: nat, format: Format)

  function ToVertexInputData(input: StageInput): VertexInputData {
    VertexInputData(input.location, VertexInputSize(input.inputType), VertexInputFormat(input.inputType))
  }

  predicate StrictlyAscending(s: seq<VertexInputData>) {
    forall i, j :: 0 <= i < j < |s| ==> s[i].location < s[j].location
  }

  predicate HasLocation(s: seq<VertexInputData>, location: nat) {
    exists i :: 0 <= i < |s| && s[i].location == location
  }

  /** Every element after the first of an ascending sequence lies above it. */
  lemma TailAboveFirst(s: seq<VertexInputData>)
    requires StrictlyAscending(s) && |s| > 0
    ensures StrictlyAscending(s[1..])
    ensures forall e :: e in s[1..] ==> s[0].location < e.location
  {
    forall e | e in s[1..]
      ensures s[0].location < e.location
    {
      var k :| 0 <= k < |s[1..]| && s[1..][k] == e;
      assert s[k + 1] == e;
    }
  }

  /** An element below everything in an ascending sequence can go in front. */
  lemma PrependAscending(x: VertexInputData, s: seq<VertexInputData>)
    requires StrictlyAscending(s)
    requires forall e :: e in s ==> x.location < e.location
    ensures StrictlyAscending([x] + s)
  {
    var t := [x] + s;
    forall i, j | 0 <= i < j < |t|
      ensures t[i].location < t[j].location
    {
      assert t[j] == s[j - 1];
      if i == 0 {
        assert s[j - 1] in s;
      } else {
        assert t[i] == s[i - 1];
      }
    }
  }

  /** A location other than the first one's is present in a sequence iff it
      is present in its tail. */
  lemma HasLocationTail(s: seq<VertexInputData>, location: nat)
    requires |s| > 0 && s[0].location != location
    ensures HasLocation(s, location) <==> HasLocation(s[1..], location)
  {
    if HasLocation(s, location) {
      var i :| 0 <= i < |s| && s[i].location == location;
      assert s[1..][i - 1].location == location;
    }
    if HasLocation(s[1..], location) {
      var i :| 0 <= i < |s[1..]| && s[1..][i].location == location;
      assert s[i + 1].location == location;
    }
  }

  /** std::set<VertexInputData>::insert: the set stays ordered by location and
      an element whose location is already present is not inserted. */
  function InsertByLocation(s: seq<VertexInputData>, v: VertexInputData): (r: seq<VertexInputData>)
    requires StrictlyAscending(s)
    ensures StrictlyAscending(r)
    ensures HasLocation(s, v.location) ==> r == s
    ensures !HasLocation(s, v.location) ==> |r| == |s| + 1 && forall e :: e in r <==> e in s || e == v
  {
    if |s| == 0 then [v]
    else if v.location < s[0].location then
      TailAboveFirst(s);
      assert s == [s[0]] + s[1..];
      PrependAscending(v, s);
      assert forall i :: 0 <= i < |s| ==> v.location < s[i].location;
      [v] + s
    else if v.location == s[0].location then s
    else
      TailAboveFirst(s);
      HasLocationTail(s, v.location);
      var rest := InsertByLocation(s[1..], v);
      PrependAscending(s[0], rest);
      assert s == [s[0]] + s[1..];
      [s[0]] + rest
  }

  /** The stage inputs of the first module whose stage is Vertex, or none. */
  function VertexStageInputs(modules: seq<ShaderModuleInfo>): (inputs: seq<StageInput>)
    ensures (forall i :: 0 <= i < |modules| ==> modules[i].stage != Vertex) ==> inputs == []
    ensures forall i :: 0 <= i < |modules| && modules[i].stage == Vertex && (forall j :: 0 <= j < i ==> modules[j].stage != Vertex)
                 ==> inputs == modules[i].stageInputs
  {
    if |modules| == 0 then []
    else if modules[0].stage == Vertex then modules[0].stageInputs
    else
      var r := VertexStageInputs(modules[1..]);
      assert forall i :: 1 <= i < |modules| ==> modules[1..][i - 1] == modules[i];
      r
  }

  /** The set the input loop builds from a module's stage inputs, visited in
      order: the first input of undefined format aborts with an error. */
  function CollectInputs(inputs: seq<StageInput>): (r: Result<seq<VertexInputData>, PipelineError>)
    ensures r.Ok? ==> StrictlyAscending(r.value)
    ensures r.Err? ==> r.error == InvalidVertexInputType
  {
    if |inputs| == 0 then Ok([])
    else
      match CollectInputs(inputs[..|inputs| - 1])
      case Err(e) => Err(e)
      case Ok(acc) =>
        var d := ToVertexInputData(inputs[|inputs| - 1]);
        if d.format == FormatUndefined then Err(InvalidVertexInputType) else Ok(InsertByLocation(acc, d))
  }

  /** No earlier input shares the location of input i. */
  predicate FirstAtLocation(inputs: seq<StageInput>, i: int)
    requires 0 <= i < |inputs|
  {
    forall j :: 0 <= j < i ==> inputs[j].location != inputs[i].location
  }

  predicate AllHaveFormat(inputs: seq<StageInput>) {
    forall i :: 0 <= i < |inputs| ==> HasVertexFormat(inputs[i].inputType)
  }

  predicate DeclaresLocation(inputs: seq<StageInput>, location: nat) {
    exists i :: 0 <= i < |inputs| && inputs[i].location == location
  }

  /** e is what the first input declared at its location reflects to. */
  predicate IsFirstDeclared(inputs: seq<StageInput>, e: VertexInputData) {
    exists i :: 0 <= i < |inputs| && FirstAtLocation(inputs, i) && e == ToVertexInputData(inputs[i])
  }

  lemma AllHaveFormatSnoc(inputs: seq<StageInput>)
    requires |inputs| > 0
    ensures AllHaveFormat(inputs) <==> AllHaveFormat(inputs[..|inputs| - 1]) && HasVertexFormat(inputs[|inputs| - 1].inputType)
  {
    assert forall i :: 0 <= i < |inputs| - 1 ==> inputs[..|inputs| - 1][i] == inputs[i];
  }

  lemma DeclaresLocationSnoc(inputs: seq<StageInput>, location: nat)
    requires |inputs| > 0
    ensures DeclaresLocation(inputs, location) <==>
            DeclaresLocation(inputs[..|inputs| - 1], location) || inputs[|inputs| - 1].location == location
  {
    var p := inputs[..|inputs| - 1];
    if DeclaresLocation(inputs, location) && inputs[|inputs| - 1].location != location {
      var i :| 0 <= i < |inputs| && inputs[i].location == location;
      assert p[i].location == location;
    }
    if DeclaresLocation(p, location) {
      var i :| 0 <= i < |p| && p[i].location == location;
      assert inputs[i].location == location;
    }
  }

  lemma IsFirstDeclaredSnoc(inputs: seq<StageInput>, e: VertexInputData)
    requires |inputs| > 0
    ensures IsFirstDeclared(inputs, e) <==>
            IsFirstDeclared(inputs[..|inputs| - 1], e)
            || (!DeclaresLocation(inputs[..|inputs| - 1], inputs[|inputs| - 1].location)
                && e == ToVertexInputData(inputs[|inputs| - 1]))
  {
    var n := |inputs| - 1;
    var p := inputs[..n];
    forall i | 0 <= i < n
      ensures p[i] == inputs[i]
      ensures FirstAtLocation(p, i) == FirstAtLocation(inputs, i)
    {
    }
    assert FirstAtLocation(inputs, n) <==> !DeclaresLocation(p, inputs[n].location) by {
      if DeclaresLocation(p, inputs[n].location) {
        var j :| 0 <= j < |p| && p[j].location == inputs[n].location;
        assert inputs[j].location == inputs[n].location;
      }
    }
    if IsFirstDeclared(inputs, e) {
      var i :| 0 <= i < |inputs| && FirstAtLocation(inputs, i) && e == ToVertexInputData(inputs[i]);
      if i < n {
        assert FirstAtLocation(p, i) && e == ToVertexInputData(p[i]);
      }
    }
    if IsFirstDeclared(p, e) {
      var i :| 0 <= i < |p| && FirstAtLocation(p, i) && e == ToVertexInputData(p[i]);
      assert FirstAtLocation(inputs, i) && e == ToVertexInputData(inputs[i]);
    }
  }

  /** Reflecting a module's inputs succeeds exactly when every input has a format. */
  lemma {:induction false} CollectInputsSucceeds(inputs: seq<StageInput>)
    ensures CollectInputs(inputs).Ok? <==> AllHaveFormat(inputs)
  {
    if |inputs| > 0 {
      CollectInputsSucceeds(inputs[..|inputs| - 1]);
      AllHaveFormatSnoc(inputs);
    }
  }

  /** Inserting adds the new element's location and keeps all others. */
  lemma InsertByLocationLocations(s: seq<VertexInputData>, v: VertexInputData, location: nat)
    requires StrictlyAscending(s)
    ensures HasLocation(InsertByLocation(s, v), location) <==> HasLocation(s, location) || location == v.location
  {
    var r := InsertByLocation(s, v);
    if !HasLocation(s, v.location) {
      if HasLocation(r, location) {
        var m :| 0 <= m < |r| && r[m].location == location;
        assert r[m] in r;
      }
      if HasLocation(s, location) {
        var m :| 0 <= m < |s| && s[m].location == location;
        assert s[m] in r;
      }
      if location == v.location {
        assert v in r;
      }
    }
  }

  /** The built set covers exactly the locations the inputs declare. */
  lemma {:induction false} CollectInputsLocations(inputs: seq<StageInput>, location: nat)
    requires CollectInputs(inputs).Ok?
    ensures HasLocation(CollectInputs(inputs).value, location) <==> DeclaresLocation(inputs, location)
  {
    if |inputs| > 0 {
      var n := |inputs| - 1;
      var p := inputs[..n];
      CollectInputsLocations(p, location);
      InsertByLocationLocations(CollectInputs(p).value, ToVertexInputData(inputs[n]), location);
      DeclaresLocationSnoc(inputs, location);
    }
  }

  /** The built set holds, for each declared location, what the first input
      declared there reflects to, and nothing else: later inputs at a taken
      location are dropped, as std::set::insert drops them. */
  lemma {:induction false} CollectInputsFirstWins(inputs: seq<StageInput>, e: VertexInputData)
    requires CollectInputs(inputs).Ok?
    ensures e in CollectInputs(inputs).value <==> IsFirstDeclared(inputs, e)
  {
    if |inputs| > 0 {
      var n := |inputs| - 1;
      var p := inputs[..n];
      var d := ToVertexInputData(inputs[n]);
      CollectInputsFirstWins(p, e);
      CollectInputsLocations(p, d.location);
      IsFirstDeclaredSnoc(inputs, e);
      assert CollectInputs(inputs).value == InsertByLocation(CollectInputs(p).value, d);
    }
  }

  /** Total byte size of a run of vertex inputs. */
  function SumSizes(s: seq<VertexInputData>): nat {
    if |s| == 0 then 0 else SumSizes(s[..|s| - 1]) + s[|s| - 1].size
  }

  /** Each input ends where the next one begins: the running stride never decreases. */
  lemma {:induction false} SumSizesMonotone(s: seq<VertexInputData>, i: nat, j: nat)
    requires i <= j <= |s|
    ensures SumSizes(s[..i]) <= SumSizes(s[..j])
    decreases j - i
  {
    if i < j {
      SumSizesMonotone(s, i, j - 1);
      assert s[..j][..j - 1] == s[..j - 1];
    }
  }

  datatype InputRate = PerVertex | PerInstance

  datatype BindingDescription = BindingDescription(binding: nat, stride: nat, inputRate: InputRate)

  datatype AttributeDescription = AttributeDescription(location: nat, binding: nat, format: Format, offset: nat)

  /** The first loop of GetVertexInputData: find the first vertex-stage module. */
  method FindVertexStageInputs(modules: seq<ShaderModuleInfo>) returns (inputs: seq<StageInput>)
    ensures inputs == VertexStageInputs(modules)
  {
    inputs := [];
    var m := 0;
    while m < |modules|
      invariant 0 <= m <= |modules|
      invariant VertexStageInputs(modules[m..]) == VertexStageInputs(modules)
      decreases |modules| - m
    {
      if modules[m].stage == Vertex {
        inputs := modules[m].stageInputs;
        return;
      }
      assert modules[m..][1..] == modules[m + 1..];
      m := m + 1;
    }
  }

  /** The input loop of GetVertexInputData: insert each reflected input into
      the location-ordered set, throwing on the first input without a format. */
  method ReflectVertexInputs(stageInputs: seq<StageInput>) returns (r: Result<seq<VertexInputData>, PipelineError>)
    ensures r == CollectInputs(stageInputs)
  {
    var vertexInputs: seq<VertexInputData> := [];
    var k := 0;
    while k < |stageInputs|
      invariant 0 <= k <= |stageInputs|
      invariant CollectInputs(stageInputs[..k]) == Ok(vertexInputs)
      decreases |stageInputs| - k
    {
      assert stageInputs[..k + 1][..k] == stageInputs[..k];
      var current := ToVertexInputData(stageInputs[k]);
      if current.format == FormatUndefined {
        assert CollectInputs(stageInputs[..k + 1]).Err?;
        CollectInputsStaysFailed(stageInputs, k + 1);
        return Err(InvalidVertexInputType);
      }
      vertexInputs := InsertByLocation(vertexInputs, current);
      k := k + 1;
    }
    assert stageInputs[..|stageInputs|] == stageInputs;
    r := Ok(vertexInputs);
  }

  /** The packing loop of GetVertexInputData: binding 0 at per-vertex rate,
      each attribute at the running stride, attributes back to back. */
  method PackAttributes(vertexInputs: seq<VertexInputData>) returns (binding: BindingDescription, attributes: seq<AttributeDescription>)
    ensures binding == BindingDescription(0, SumSizes(vertexInputs), PerVertex)
    ensures |attributes| == |vertexInputs|
    ensures forall i :: 0 <= i < |attributes| ==>
      attributes[i] == AttributeDescription(vertexInputs[i].location, 0, vertexInputs[i].format, SumSizes(vertexInputs[..i]))
    ensures forall i, j :: 0 <= i < j < |attributes| ==> attributes[i].offset + vertexInputs[i].size <= attributes[j].offset
  {
    var stride := 0;
    attributes := [];
    var a := 0;
    while a < |vertexInputs|
      invariant 0 <= a <= |vertexInputs|
      invariant |attributes| == a
      invariant stride == SumSizes(vertexInputs[..a])
      invariant forall i :: 0 <= i < a ==>
        attributes[i] == AttributeDescription(vertexInputs[i].location, 0, vertexInputs[i].format, SumSizes(vertexInputs[..i]))
      decreases |vertexInputs| - a
    {
      attributes := attributes + [AttributeDescription(vertexInputs[a].location, 0, vertexInputs[a].format, stride)];
      assert vertexInputs[..a + 1][..a] == vertexInputs[..a];
      stride := stride + vertexInputs[a].size;
      a := a + 1;
    }
    assert vertexInputs[..a] == vertexInputs;
    binding := BindingDescription(0, stride, PerVertex);

    forall i, j | 0 <= i < j < |attributes|
      ensures attributes[i].offset + vertexInputs[i].size <= attributes[j].offset
    {
      assert vertexInputs[..i + 1][..i] == vertexInputs[..i];
      SumSizesMonotone(vertexInputs, i + 1, j);
    }
  }

  /** GetVertexInputData: reflect the stage inputs of the first vertex-stage
      module (an input without a format throws), keep the first input per
      location, and pack them in ascending location order into binding 0:
      each attribute starts where the previous one ends and the stride is the
      total size. */
  method GetVertexInputData(modules: seq<ShaderModuleInfo>)
    returns (r: Result<(BindingDescription, seq<AttributeDescription>), PipelineError>)
    ensures r.Err? <==> CollectInputs(VertexStageInputs(modules)).Err?
    ensures r.Err? ==> r.error == InvalidVertexInputType
    ensures r.Ok? ==>
      var inputs := CollectInputs(VertexStageInputs(modules)).value;
      var (binding, attributes) := r.value;
      && binding == BindingDescription(0, SumSizes(inputs), PerVertex)
      && |attributes| == |inputs|
      && (forall i :: 0 <= i < |attributes| ==>
            attributes[i] == AttributeDescription(inputs[i].location, 0, inputs[i].format, SumSizes(inputs[..i])))
      && (forall i, j :: 0 <= i < j < |attributes| ==>
            attributes[i].location < attributes[j].location
            && attributes[i].offset + inputs[i].size <= attributes[j].offset)
  {
    var stageInputs := FindVertexStageInputs(modules);
    var collected := ReflectVertexInputs(stageInputs);
    if collected.Err? {
      return Err(collected.error);
    }
    var binding, attributes := PackAttributes(collected.value);
    r := Ok((binding, attributes));
  }

  /** Once an input has failed, every longer prefix fails too. */
  lemma {:induction false} CollectInputsStaysFailed(inputs: seq<StageInput>, k: nat)
    requires k <= |inputs|
    requires CollectInputs(inputs[..k]).Err?
    ensures CollectInputs(inputs).Err?
    decreases |inputs| - k
  {
    if k < |inputs| {
      assert inputs[..k + 1][..k] == inputs[..k];
      CollectInputsStaysFailed(inputs, k + 1);
    } else {
      assert inputs[..k] == inputs;
    }
  }
}
