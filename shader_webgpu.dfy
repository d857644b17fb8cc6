/** The WebGPU shader manager (CShader_WebGPU): two handle tables, the vertex and
    pixel shader most recently set, and the uniform entries of the next bind group.
    Pipeline lookup itself belongs to a cache outside this model; only the key the
    manager asks it for is recorded. */
module ShaderWebGPU {
  import opened ShaderCommon
  import opened HandleTables
  import opened ShaderRegistry

  /** The only rasterizer state this manager asks pipelines for. */
  datatype RasterizerState = Default2D

  /** `{}` (no vertex attributes) or the engine's standard 2D vertex layout. */
  datatype VertexLayout = EmptyVertexLayout | StandardVertexLayout

  /** What the manager asks the pipeline cache for. */
  datatype PipelineKey = PipelineKey(vs: Handle, ps: Handle, rasterizer: RasterizerState, layout: VertexLayout)

  /** A wgpu::BindGroupEntry: a binding slot and the resource bound there. */
  datatype BindGroupEntry = BindGroupEntry(binding: nat, resource: nat)

  /** A wgpu::BindGroupDescriptor: layout 0 of the pipeline requested under
      `pipeline`, and the entries with their count. */
  datatype BindGroupDescriptor = BindGroupDescriptor(pipeline: PipelineKey, entries: seq<BindGroupEntry>, entryCount: nat)

  class CShaderWebGPU {
    var vertexShaders: Table
    var pixelShaders: Table
    var enginePSs: seq<Handle>
    var currentVS: Handle
    var currentPS: Handle
    var uniforms: seq<BindGroupEntry>

    /** Shader::Internal::MakeUniformBlockBinding, whose formula is not modelled;
        the vertex and pixel paths both go through it. */
    const uniformBlockBinding: (ShaderStage, nat) -> nat

    /** Backend effects, recorded rather than performed. */
    ghost var pipelineCacheReady: bool
    ghost var lastRequest: Option<PipelineKey>
    ghost var lastBindGroup: Option<BindGroupDescriptor>
    ghost var boundUniformBuffers: map<nat, nat>
    ghost var teardownLog: seq<TeardownStep>

    ghost predicate Valid()
      reads this
    {
      WellFormed(vertexShaders) && WellFormed(pixelShaders) &&
      Usable(vertexShaders) && Usable(pixelShaders)
    }

    /** Both null placeholders are installed, as a successful Init leaves them. */
    ghost predicate Ready()
      reads this
    {
      HasNull(vertexShaders) && HasNull(pixelShaders)
    }

    constructor (uniformBlockBinding: (ShaderStage, nat) -> nat)
      ensures Valid() && !Ready()
      ensures vertexShaders == EmptyTable && pixelShaders == EmptyTable && enginePSs == []
      ensures currentVS == NullHandle && currentPS == NullHandle && uniforms == []
      ensures this.uniformBlockBinding == uniformBlockBinding
      ensures !pipelineCacheReady && lastRequest == None && lastBindGroup == None
      ensures boundUniformBuffers == map[] && teardownLog == []
    {
      vertexShaders, pixelShaders, enginePSs := EmptyTable, EmptyTable, [];
      currentVS, currentPS, uniforms := NullHandle, NullHandle, [];
      this.uniformBlockBinding := uniformBlockBinding;
      pipelineCacheReady, lastRequest, lastBindGroup := false, None, None;
      boundUniformBuffers, teardownLog := map[], [];
    }

    /** init: registers the null VS, then the null PS, failing with an EngineError
        at the first one that is not initialized; then initialises the pipeline cache.
        `nullVS` and `nullPS` are the objects the backend built from the Null tag. */
    method Init(nullVS: ShaderObj, nullPS: ShaderObj) returns (r: Outcome)
      requires Valid()
      modifies this`vertexShaders, this`pixelShaders, this`pipelineCacheReady
      ensures Valid()
      ensures r == Success <==> nullVS.initialized && nullPS.initialized
      ensures r == Success ==> Ready() && pipelineCacheReady
      ensures !nullVS.initialized ==>
        r == EngineError(NullVSFailed) && vertexShaders == old(vertexShaders)
      ensures nullVS.initialized ==> vertexShaders == SetNullData(old(vertexShaders), nullVS)
      ensures nullVS.initialized && !nullPS.initialized ==> r == EngineError(NullPSFailed)
      ensures pixelShaders == if r == Success then SetNullData(old(pixelShaders), nullPS) else old(pixelShaders)
      ensures pipelineCacheReady == (r == Success || old(pipelineCacheReady))
    {
      if !nullVS.initialized {
        return EngineError(NullVSFailed);
      }
      vertexShaders := SetNullData(vertexShaders, nullVS);

      if !nullPS.initialized {
        return EngineError(NullPSFailed);
      }
      pixelShaders := SetNullData(pixelShaders, nullPS);

      pipelineCacheReady := true;
      r := Success;
    }

    /** createVSFromFile: `file` is the whole text of the file, or None when it
        cannot be opened. */
    method CreateVSFromFile(file: Option<string>, entryPoint: string, bindings: seq<ConstantBufferBinding>, compile: Compiler)
      returns (h: Handle)
      requires Valid()
      modifies this`vertexShaders
      ensures Valid()
      ensures (vertexShaders, h) == CreateFromFile(old(vertexShaders), file, bindings, compile)
    {
      if file.None? {
        return NullHandle;
      }
      h := CreateVSFromSource(file.value, entryPoint, bindings, compile);
    }

    /** createVSFromSource: the entry point is ignored by this backend. */
    method CreateVSFromSource(source: string, entryPoint: string, bindings: seq<ConstantBufferBinding>, compile: Compiler)
      returns (h: Handle)
      requires Valid()
      modifies this`vertexShaders
      ensures Valid()
      ensures (vertexShaders, h) == CreateFromSource(old(vertexShaders), compile(source, bindings))
    {
      var vertexShader := compile(source, bindings);
      if !vertexShader.initialized {
        return NullHandle;
      }
      var (table, id) := Add(vertexShaders, vertexShader);
      vertexShaders, h := table, id;
    }

    method CreatePSFromFile(file: Option<string>, entryPoint: string, bindings: seq<ConstantBufferBinding>, compile: Compiler)
      returns (h: Handle)
      requires Valid()
      modifies this`pixelShaders
      ensures Valid()
      ensures (pixelShaders, h) == CreateFromFile(old(pixelShaders), file, bindings, compile)
    {
      if file.None? {
        return NullHandle;
      }
      h := CreatePSFromSource(file.value, entryPoint, bindings, compile);
    }

    method CreatePSFromSource(source: string, entryPoint: string, bindings: seq<ConstantBufferBinding>, compile: Compiler)
      returns (h: Handle)
      requires Valid()
      modifies this`pixelShaders
      ensures Valid()
      ensures (pixelShaders, h) == CreateFromSource(old(pixelShaders), compile(source, bindings))
    {
      var pixelShader := compile(source, bindings);
      if !pixelShader.initialized {
        return NullHandle;
      }
      var (table, id) := Add(pixelShaders, pixelShader);
      pixelShaders, h := table, id;
    }

    method ReleaseVS(h: Handle)
      requires Valid()
      modifies this`vertexShaders
      ensures Valid()
      ensures vertexShaders == Erase(old(vertexShaders), h)
    {
      vertexShaders := Erase(vertexShaders, h);
    }

    method ReleasePS(h: Handle)
      requires Valid()
      modifies this`pixelShaders
      ensures Valid()
      ensures pixelShaders == Erase(old(pixelShaders), h)
    {
      pixelShaders := Erase(pixelShaders, h);
    }

    /** setVS only remembers the handle; it is neither looked up nor checked. */
    method SetVS(h: Handle)
      modifies this`currentVS
      ensures currentVS == h
    {
      currentVS := h;
    }

    method SetPS(h: Handle)
      modifies this`currentPS
      ensures currentPS == h
    {
      currentPS := h;
    }

    method GetBinaryVS(h: Handle) returns (binary: seq<bv8>)
      requires h in vertexShaders.entries
      ensures binary == vertexShaders.entries[h].binary
    {
      binary := vertexShaders.entries[h].binary;
    }

    method GetBinaryPS(h: Handle) returns (binary: seq<bv8>)
      requires h in pixelShaders.entries
      ensures binary == pixelShaders.entries[h].binary
    {
      binary := pixelShaders.entries[h].binary;
    }

    method GetShaderModuleVS(h: Handle) returns (shaderModule: nat)
      requires h in vertexShaders.entries
      ensures shaderModule == vertexShaders.entries[h].program
    {
      shaderModule := vertexShaders.entries[h].program;
    }

    method GetShaderModulePS(h: Handle) returns (shaderModule: nat)
      requires h in pixelShaders.entries
      ensures shaderModule == pixelShaders.entries[h].program
    {
      shaderModule := pixelShaders.entries[h].program;
    }

    /** setConstantBufferVS: binds the buffer at the vertex stage's block binding. */
    method SetConstantBufferVS(slot: nat, buffer: nat)
      modifies this`boundUniformBuffers
      ensures boundUniformBuffers == old(boundUniformBuffers)[uniformBlockBinding(Vertex, slot) := buffer]
    {
      boundUniformBuffers := boundUniformBuffers[uniformBlockBinding(Vertex, slot) := buffer];
    }

    method SetConstantBufferPS(slot: nat, buffer: nat)
      modifies this`boundUniformBuffers
      ensures boundUniformBuffers == old(boundUniformBuffers)[uniformBlockBinding(Pixel, slot) := buffer]
    {
      boundUniformBuffers := boundUniformBuffers[uniformBlockBinding(Pixel, slot) := buffer];
    }

    /** usePipeline: asks for the pipeline of the current VS and PS with the
        Default2D rasterizer state and no vertex layout, and builds bind group 0
        from exactly the current uniform entries. */
    method UsePipeline()
      modifies this`lastRequest, this`lastBindGroup
      ensures lastRequest == Some(PipelineKey(currentVS, currentPS, Default2D, EmptyVertexLayout))
      ensures lastBindGroup == Some(BindGroupDescriptor(lastRequest.value, uniforms, |uniforms|))
    {
      var key := PipelineKey(currentVS, currentPS, Default2D, EmptyVertexLayout);
      lastRequest := Some(key);
      lastBindGroup := Some(BindGroupDescriptor(key, uniforms, |uniforms|));
    }

    /** usePipelineWithStandardVertexLayout: as UsePipeline, with the standard layout. */
    method UsePipelineWithStandardVertexLayout()
      modifies this`lastRequest, this`lastBindGroup
      ensures lastRequest == Some(PipelineKey(currentVS, currentPS, Default2D, StandardVertexLayout))
      ensures lastBindGroup == Some(BindGroupDescriptor(lastRequest.value, uniforms, |uniforms|))
    {
      var key := PipelineKey(currentVS, currentPS, Default2D, StandardVertexLayout);
      lastRequest := Some(key);
      lastBindGroup := Some(BindGroupDescriptor(key, uniforms, |uniforms|));
    }

    /** setUniform replaces the uniform entries wholesale. */
    method SetUniform(entries: seq<BindGroupEntry>)
      modifies this`uniforms
      ensures uniforms == entries
    {
      uniforms := entries;
    }

    /** The destructor: clears the engine pixel shaders, then destroys the pixel
        shader table, then the vertex shader table. */
    method Destruct()
      requires Valid()
      modifies this`enginePSs, this`pixelShaders, this`vertexShaders, this`teardownLog
      ensures Valid() && !Ready()
      ensures enginePSs == []
      ensures pixelShaders == DestroyTable(old(pixelShaders))
      ensures vertexShaders == DestroyTable(old(vertexShaders))
      ensures teardownLog == old(teardownLog) + [ClearEnginePSs, DestroyPixelShaders, DestroyVertexShaders]
    {
      enginePSs := [];
      teardownLog := teardownLog + [ClearEnginePSs];
      pixelShaders := DestroyTable(pixelShaders);
      teardownLog := teardownLog + [DestroyPixelShaders];
      vertexShaders := DestroyTable(vertexShaders);
      teardownLog := teardownLog + [DestroyVertexShaders];
    }
  }
}
