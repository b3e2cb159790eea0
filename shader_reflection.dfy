/** What the graphics pipeline reads from a compiled shader module through
    SPIRV-Cross reflection: the module's stage, its vertex-stage inputs, its
    uniform buffers, its sampled images and its push-constant blocks, each with
    the decorations the pipeline asks for. */
module ShaderReflection {
  import opened VkTypes

  /** spirv_cross::SPIRType::BaseType; the base types the pipeline does not
      handle are kept as an opaque code. */
  datatype BaseType = Boolean | Half | Int | UInt | Float | Double | OtherBaseType(code: int)

  /** The part of a spirv_cross::SPIRType the vertex-input code reads. */
  datatype SpirType = SpirType(baseType: BaseType, vecsize: nat)

  /** A stage input: its Location decoration and its type. */
  datatype StageInput = StageInput(location: nat, inputType: SpirType)

  /** A uniform block: DescriptorSet and Binding decorations and the declared struct size. */
  datatype UniformResource = UniformResource(descriptorSet: nat, binding: nat, declaredSize: nat)

  /** A combined image sampler: DescriptorSet and Binding decorations. */
  datatype SamplerResource = SamplerResource(descriptorSet: nat, binding: nat)

  /** A push-constant block: its declared struct size. */
  datatype PushConstantResource = PushConstantResource(declaredSize: nat)

  datatype ShaderModuleInfo = ShaderModuleInfo(
    stage: Stage,
    stageInputs: seq<StageInput>,
    uniformBuffers: seq<UniformResource>,
    sampledImages: seq<SamplerResource>,
    pushConstantBuffers: seq<PushConstantResource>)

  /** The exceptions GraphicsPipeline throws: its runtime_error messages, and
      the std::bad_optional_access of reading the size of a sampler binding. */
  datatype PipelineError =
    | InvalidVertexInputType
    | NonZeroDescriptorSet
    | PushConstantBufferTooLarge
    | BadOptionalAccess
}
