/** The OpenGL ES 3 shader manager (CShader_GLES3): two handle tables and one GL
    program pipeline object. Binding programs to the pipeline's stages, re-applying
    sampler uniforms and binding uniform buffers are GL calls; they are recorded in
    ghost fields rather than performed. */
module ShaderGLES3 {
  import opened ShaderCommon
  import opened HandleTables
  import opened ShaderRegistry

  const GenPipelineFailed: string := "glGenProgramPipelines() failed"

  class CShaderGLES3 {
    var vertexShaders: Table
    var pixelShaders: Table

    /** m_pipeline: the program pipeline name; 0 means none. */
    var pipeline: nat

    /** Shader::Internal::MakeUniformBlockBinding, whose formula is not modelled;
        the vertex and pixel paths both go through it. */
    const uniformBlockBinding: (ShaderStage, nat) -> nat

    /** The program attached to the vertex and to the fragment stage of each
        program pipeline, by pipeline name. */
    ghost var vertexStage: map<nat, nat>
    ghost var fragmentStage: map<nat, nat>
    /** The sampler bindings re-applied by each setPS, oldest first. */
    ghost var samplerApplications: seq<seq<TextureIndex>>
    /** The program made current by glUseProgram and the pipeline bound. */
    ghost var activeProgram: nat
    ghost var boundPipeline: nat
    ghost var boundUniformBuffers: map<nat, nat>
    ghost var teardownLog: seq<TeardownStep>

    ghost predicate Valid()
      reads this
    {
      WellFormed(vertexShaders) && WellFormed(pixelShaders) &&
      Usable(vertexShaders) && Usable(pixelShaders)
    }

    /** Both null placeholders are installed, as a successful Init leaves them. */
    ghost predicate Ready()
      reads this
    {
      HasNull(vertexShaders) && HasNull(pixelShaders)
    }

    constructor (uniformBlockBinding: (ShaderStage, nat) -> nat)
      ensures Valid() && !Ready()
      ensures vertexShaders == EmptyTable && pixelShaders == EmptyTable && pipeline == 0
      ensures this.uniformBlockBinding == uniformBlockBinding
      ensures vertexStage == map[] && fragmentStage == map[] && samplerApplications == []
      ensures activeProgram == 0 && boundPipeline == 0
      ensures boundUniformBuffers == map[] && teardownLog == []
    {
      vertexShaders, pixelShaders, pipeline := EmptyTable, EmptyTable, 0;
      this.uniformBlockBinding := uniformBlockBinding;
      vertexStage, fragmentStage, samplerApplications := map[], map[], [];
      activeProgram, boundPipeline := 0, 0;
      boundUniformBuffers, teardownLog := map[], [];
    }

    /** init: registers the null VS, then the null PS, failing with an EngineError
        at the first one that is not initialized; only then generates the program
        pipeline, failing if GL returned the name 0. `generatedPipeline` is the name
        glGenProgramPipelines writes. */
    method Init(nullVS: ShaderObj, nullPS: ShaderObj, generatedPipeline: nat) returns (r: Outcome)
      requires Valid()
      modifies this`vertexShaders, this`pixelShaders, this`pipeline
      ensures Valid()
      ensures r == Success <==> nullVS.initialized && nullPS.initialized && generatedPipeline != 0
      ensures r == Success ==> Ready() && pipeline != 0
      ensures !nullVS.initialized ==>
        r == EngineError(NullVSFailed) && vertexShaders == old(vertexShaders)
      ensures nullVS.initialized ==> vertexShaders == SetNullData(old(vertexShaders), nullVS)
      ensures nullVS.initialized && !nullPS.initialized ==> r == EngineError(NullPSFailed)
      ensures pixelShaders ==
        if nullVS.initialized && nullPS.initialized then SetNullData(old(pixelShaders), nullPS)
        else old(pixelShaders)
      ensures nullVS.initialized && nullPS.initialized && generatedPipeline == 0 ==>
        r == EngineError(GenPipelineFailed)
      ensures pipeline == if nullVS.initialized && nullPS.initialized then generatedPipeline else old(pipeline)
    {
      if !nullVS.initialized {
        return EngineError(NullVSFailed);
      }
      vertexShaders := SetNullData(vertexShaders, nullVS);

      if !nullPS.initialized {
        return EngineError(NullPSFailed);
      }
      pixelShaders := SetNullData(pixelShaders, nullPS);

      pipeline := generatedPipeline;
      if pipeline == 0 {
        return EngineError(GenPipelineFailed);
      }
      r := Success;
    }

    /** createVSFromFile: `file` is the whole text of the file, or None when it
        cannot be opened. */
    method CreateVSFromFile(file: Option<string>, entryPoint: string, bindings: seq<ConstantBufferBinding>, compile: Compiler)
      returns (h: Handle)
      requires Valid()
      modifies this`vertexShaders
      ensures Valid()
      ensures (vertexShaders, h) == CreateFromFile(old(vertexShaders), file, bindings, compile)
    {
      if file.None? {
        return NullHandle;
      }
      h := CreateVSFromSource(file.value, entryPoint, bindings, compile);
    }

    /** createVSFromSource: the entry point is ignored by this backend. */
    method CreateVSFromSource(source: string, entryPoint: string, bindings: seq<ConstantBufferBinding>, compile: Compiler)
      returns (h: Handle)
      requires Valid()
      modifies this`vertexShaders
      ensures Valid()
      ensures (vertexShaders, h) == CreateFromSource(old(vertexShaders), compile(source, bindings))
    {
      var vertexShader := compile(source, bindings);
      if !vertexShader.initialized {
        return NullHandle;
      }
      var (table, id) := Add(vertexShaders, vertexShader);
      vertexShaders, h := table, id;
    }

    method CreatePSFromFile(file: Option<string>, entryPoint: string, bindings: seq<ConstantBufferBinding>, compile: Compiler)
      returns (h: Handle)
      requires Valid()
      modifies this`pixelShaders
      ensures Valid()
      ensures (pixelShaders, h) == CreateFromFile(old(pixelShaders), file, bindings, compile)
    {
      if file.None? {
        return NullHandle;
      }
      h := CreatePSFromSource(file.value, entryPoint, bindings, compile);
    }

    method CreatePSFromSource(source: string, entryPoint: string, bindings: seq<ConstantBufferBinding>, compile: Compiler)
      returns (h: Handle)
      requires Valid()
      modifies this`pixelShaders
      ensures Valid()
      ensures (pixelShaders, h) == CreateFromSource(old(pixelShaders), compile(source, bindings))
    {
      var pixelShader := compile(source, bindings);
      if !pixelShader.initialized {
        return NullHandle;
      }
      var (table, id) := Add(pixelShaders, pixelShader);
      pixelShaders, h := table, id;
    }

    method ReleaseVS(h: Handle)
      requires Valid()
      modifies this`vertexShaders
      ensures Valid()
      ensures vertexShaders == Erase(old(vertexShaders), h)
    {
      vertexShaders := Erase(vertexShaders, h);
    }

    method ReleasePS(h: Handle)
      requires Valid()
      modifies this`pixelShaders
      ensures Valid()
      ensures pixelShaders == Erase(old(pixelShaders), h)
    {
      pixelShaders := Erase(pixelShaders, h);
    }

    /** setVS: attaches the program of the handle's entry to the vertex stage
        (the null shader's program for the null handle). */
    method SetVS(h: Handle)
      requires h in vertexShaders.entries
      modifies this`vertexStage
      ensures vertexStage == old(vertexStage)[pipeline := vertexShaders.entries[h].program]
    {
      var vsProgram := vertexShaders.entries[h].program;
      vertexStage := vertexStage[pipeline := vsProgram];
    }

    /** setPS: attaches the entry's program to the fragment stage, then re-applies
        that shader's sampler uniforms, on every call. */
    method SetPS(h: Handle)
      requires h in pixelShaders.entries
      modifies this`fragmentStage, this`samplerApplications
      ensures fragmentStage == old(fragmentStage)[pipeline := pixelShaders.entries[h].program]
      ensures samplerApplications == old(samplerApplications) + [pixelShaders.entries[h].samplers]
    {
      var pixelShader := pixelShaders.entries[h];
      var psProgram := pixelShader.program;
      fragmentStage := fragmentStage[pipeline := psProgram];
      samplerApplications := samplerApplications + [pixelShader.samplers];
    }

    method GetBinaryVS(h: Handle) returns (binary: seq<bv8>)
      requires h in vertexShaders.entries
      ensures binary == vertexShaders.entries[h].binary
    {
      binary := vertexShaders.entries[h].binary;
    }

    method GetBinaryPS(h: Handle) returns (binary: seq<bv8>)
      requires h in pixelShaders.entries
      ensures binary == pixelShaders.entries[h].binary
    {
      binary := pixelShaders.entries[h].binary;
    }

    method SetConstantBufferVS(slot: nat, buffer: nat)
      modifies this`boundUniformBuffers
      ensures boundUniformBuffers == old(boundUniformBuffers)[uniformBlockBinding(Vertex, slot) := buffer]
    {
      boundUniformBuffers := boundUniformBuffers[uniformBlockBinding(Vertex, slot) := buffer];
    }

    method SetConstantBufferPS(slot: nat, buffer: nat)
      modifies this`boundUniformBuffers
      ensures boundUniformBuffers == old(boundUniformBuffers)[uniformBlockBinding(Pixel, slot) := buffer]
    {
      boundUniformBuffers := boundUniformBuffers[uniformBlockBinding(Pixel, slot) := buffer];
    }

    /** usePipeline: unbinds any monolithic program, then binds the pipeline. */
    method UsePipeline()
      modifies this`activeProgram, this`boundPipeline
      ensures activeProgram == 0 && boundPipeline == pipeline
    {
      activeProgram := 0;
      boundPipeline := pipeline;
    }

    /** The destructor: deletes the program pipeline if there is one and forgets
        its name, then destroys the pixel shader table, then the vertex one. */
    method Destruct()
      requires Valid()
      modifies this`pipeline, this`pixelShaders, this`vertexShaders, this`teardownLog
      ensures Valid() && !Ready()
      ensures pipeline == 0
      ensures pixelShaders == DestroyTable(old(pixelShaders))
      ensures vertexShaders == DestroyTable(old(vertexShaders))
      ensures teardownLog == old(teardownLog)
        + (if old(pipeline) != 0 then [DeleteProgramPipeline(old(pipeline))] else [])
        + [DestroyPixelShaders, DestroyVertexShaders]
    {
      if pipeline != 0 {
        teardownLog := teardownLog + [DeleteProgramPipeline(pipeline)];
        pipeline := 0;
      }
      pixelShaders := DestroyTable(pixelShaders);
      teardownLog := teardownLog + [DestroyPixelShaders];
      vertexShaders := DestroyTable(vertexShaders);
      teardownLog := teardownLog + [DestroyVertexShaders];
    }
  }
}
