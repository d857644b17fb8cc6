/** Values shared by both shader managers: handles, the abstract shader object
    produced by a backend compiler, and the outcome of engine initialisation. */
module ShaderCommon {

  datatype Option<+T> = None | Some(value: T)

  /** Identifier of a shader in its stage's table (VertexShader::IDType, PixelShader::IDType). */
  type Handle = nat

  /** The reserved identifier IDType::NullAsset(); it names the null placeholder shader. */
  const NullHandle: Handle := 0

  /** A (texture unit, sampler uniform location) pair kept by a pixel shader. */
  datatype TextureIndex = TextureIndex(textureUnit: nat, location: int)

  /** What a backend shader object exposes to the manager: whether compilation and
      linking succeeded, the program binary, the backend program (a GL program name,
      or a WebGPU shader module) and the sampler bindings re-applied on every bind. */
  datatype ShaderObj = ShaderObj(
    initialized: bool,
    binary: seq<bv8>,
    program: nat,
    samplers: seq<TextureIndex>)

  /** A named uniform block and the slot the caller wants it bound to. */
  datatype ConstantBufferBinding = ConstantBufferBinding(name: string, index: nat)

  /** The backend compiler: builds a shader object from source text and bindings.
      Compilation itself is outside the model; only its outcome matters. */
  type Compiler = (string, seq<ConstantBufferBinding>) -> ShaderObj

  datatype ShaderStage = Vertex | Pixel

  /** Result of `init`: success, or the EngineError that the source throws. */
  datatype Outcome = Success | EngineError(message: string)

  const NullVSFailed: string := "Null VertexShader initialization failed"
  const NullPSFailed: string := "Null PixelShader initialization failed"

  /** The steps a manager's destructor takes, in the order it takes them. */
  datatype TeardownStep =
    | ClearEnginePSs
    | DeleteProgramPipeline(name: nat)
    | DestroyPixelShaders
    | DestroyVertexShaders
}
