# Siv3D shader managers, modelled in Dafny

This project models the shader managers of the Siv3D engine's WebGPU backend
(`CShader_WebGPU`) and OpenGL ES 3 backend (`CShader_GLES3`). Each manager owns two
handle tables, one for vertex shaders (VS) and one for pixel shaders (PS). Each table
has a reserved null entry, named by `IDType::NullAsset()`, that holds a placeholder
shader. The managers do the following:

- `init` installs a null placeholder for each stage. It throws an `EngineError` if a
  placeholder is not initialized. GLES3 then also generates a program pipeline.
- `create*FromSource` registers a compiled shader only if it reports
  `isInitialized()`. Otherwise it returns the null handle and leaves the table alone.
- `create*FromFile` returns the null handle when the file cannot be read. Otherwise it
  passes the whole text to `create*FromSource`.
- `release*` erases a handle. `set*`, `getBinary*` and `usePipeline*` read the tables
  or the current handles to drive the backend.

Files:

- `shader_common.dfy` (module `ShaderCommon`): handles, the abstract shader object
  (`initialized`, `binary`, `program`, sampler bindings), the compiler type, and the
  `init` outcome.
- `handle_tables.dfy` (module `HandleTables`): the per-stage handle table. Its class
  lies outside the two modelled files, so it is modelled as a value `Table` with the
  contract the managers rely on. `Add` returns a key that is neither live nor the null
  key, and erasing the null handle does nothing; both are assumptions about the unseen
  table. The counter that gives `Add` its
  body is only one way to meet that contract, and nothing else depends on it.
- `shader_registry.dfy` (module `ShaderRegistry`): the create and release bookkeeping,
  which both backends perform identically, as functions of one stage's table. It also
  holds lemmas about any sequence of creations and releases.
- `shader_webgpu.dfy` (module `ShaderWebGPU`): class `CShaderWebGPU`. Its fields are
  the two tables, `currentVS`, `currentPS`, `uniforms` and `enginePSs`. Ghost fields
  record the pipeline key last requested, the bind group built, the uniform buffers
  bound and the order of teardown.
- `shader_gles3.dfy` (module `ShaderGLES3`): class `CShaderGLES3`. Its fields are the
  two tables and `pipeline` (the program pipeline name, 0 for none). Ghost fields
  record the program attached to each pipeline stage, each re-application of sampler
  uniforms, the bound pipeline and uniform buffers, and the order of teardown.

Inputs the source takes from code outside this model are parameters:

- The backend compiler is a function from source text and bindings to a shader object.
- The text reader gives an `Option<string>`: `None` when the file cannot be opened.
- The null objects built from the `Null` tag are inputs of `Init`.
- The name that `glGenProgramPipelines` writes is an input of `Init` (GLES3 only).
- `Shader::Internal::MakeUniformBlockBinding` is a function fixed when a manager is
  constructed.

Each table-changing method is proved equal to the shared functions in `ShaderRegistry` and
`HandleTables`. Its frame (`modifies this`field`) shows that nothing else changes. Both
classes keep the invariant `Valid()`: each table is well formed and holds only
initialized shaders.

## Model

| member | source | states |
|---|---|---|
| `HandleTables.SetNullData` | Siv3D/src/Siv3D-Platform/WebGPU/Siv3D/Shader/WebGPU/CShader_WebGPU.cpp:61 | Afterwards the null key resolves to the given placeholder. Only the null key is added, and every other entry is unchanged. |
| `HandleTables.Add` | Siv3D/src/Siv3D-Platform/WebGPU/Siv3D/Shader/WebGPU/CShader_WebGPU.cpp:115 | The key returned was not live and is not the null key. The table gains that key, mapped to the object. This is the assumed contract of the unseen table. |
| `HandleTables.Erase` | Siv3D/src/Siv3D-Platform/WebGPU/Siv3D/Shader/WebGPU/CShader_WebGPU.cpp:147 | Erasing the null handle changes nothing. Any other handle is removed, and every remaining entry keeps its object. This is the assumed contract of the unseen table. |
| `HandleTables.DestroyTable` | Siv3D/src/Siv3D-Platform/WebGPU/Siv3D/Shader/WebGPU/CShader_WebGPU.cpp:37 | Every entry, the null one included, is released. |
| `ShaderRegistry.CreateFromSource` | Siv3D/src/Siv3D-Platform/OpenGLES3/Siv3D/Shader/GLES3/CShader_GLES3.cpp:92-104 | The handle is null exactly when the object is not initialized, and then the table is unchanged. Otherwise the handle is new and maps to the object. The table grows by exactly one entry on success and by none on failure. |
| `ShaderRegistry.CreateFromFile` | Siv3D/src/Siv3D-Platform/OpenGLES3/Siv3D/Shader/GLES3/CShader_GLES3.cpp:80-90 | An unreadable file gives the null handle and an unchanged table. A readable one gives exactly what creation from its whole text gives. |
| `ShaderRegistry.ReleaseUndoesCreate` | Siv3D/src/Siv3D-Platform/WebGPU/Siv3D/Shader/WebGPU/CShader_WebGPU.cpp:104-154 | Releasing the handle a creation returned restores the table's entries. This holds whether the creation succeeded or returned the null handle. |
| `ShaderRegistry.NullEntrySurvives` | Siv3D/src/Siv3D-Platform/OpenGLES3/Siv3D/Shader/GLES3/CShader_GLES3.cpp:40-142 | After init, no sequence of creations and releases removes or replaces the null placeholder. No live handle ever maps to an uninitialized shader. |
| `ShaderRegistry.LiveHandleStable` | Siv3D/src/Siv3D-Platform/OpenGLES3/Siv3D/Shader/GLES3/CShader_GLES3.cpp:92-142 | A live handle keeps resolving to the same object through any sequence of creations and releases that does not release it. |
| `ShaderWebGPU.CShaderWebGPU.constructor` | Siv3D/src/Siv3D-Platform/WebGPU/Siv3D/Shader/WebGPU/CShader_WebGPU.cpp:24-27 | The manager starts with empty tables, no null placeholders and both current handles null. |
| `ShaderWebGPU.CShaderWebGPU.Init` | Siv3D/src/Siv3D-Platform/WebGPU/Siv3D/Shader/WebGPU/CShader_WebGPU.cpp:43-90 | It succeeds exactly when both null objects are initialized. A failed VS gives the VS error with both tables untouched. A failed PS gives the PS error after the null VS is registered, with the PS table untouched. The pipeline cache is initialized only on success. |
| `ShaderWebGPU.CShaderWebGPU.CreateVSFromFile` | Siv3D/src/Siv3D-Platform/WebGPU/Siv3D/Shader/WebGPU/CShader_WebGPU.cpp:92-102 | The new VS table and the handle equal `CreateFromFile` of the old VS table. The PS table and the current handles are untouched. |
| `ShaderWebGPU.CShaderWebGPU.CreateVSFromSource` | Siv3D/src/Siv3D-Platform/WebGPU/Siv3D/Shader/WebGPU/CShader_WebGPU.cpp:104-116 | The new VS table and the handle equal `CreateFromSource` of the compiled object. Only the VS table changes. |
| `ShaderWebGPU.CShaderWebGPU.CreatePSFromFile` | Siv3D/src/Siv3D-Platform/WebGPU/Siv3D/Shader/WebGPU/CShader_WebGPU.cpp:118-128 | The new PS table and the handle equal `CreateFromFile` of the old PS table. Only the PS table changes. |
| `ShaderWebGPU.CShaderWebGPU.CreatePSFromSource` | Siv3D/src/Siv3D-Platform/WebGPU/Siv3D/Shader/WebGPU/CShader_WebGPU.cpp:130-142 | The new PS table and the handle equal `CreateFromSource` of the compiled object. Only the PS table changes. |
| `ShaderWebGPU.CShaderWebGPU.ReleaseVS` | Siv3D/src/Siv3D-Platform/WebGPU/Siv3D/Shader/WebGPU/CShader_WebGPU.cpp:144-148 | The VS table loses only the given handle. The PS table and the current handles are unchanged. |
| `ShaderWebGPU.CShaderWebGPU.ReleasePS` | Siv3D/src/Siv3D-Platform/WebGPU/Siv3D/Shader/WebGPU/CShader_WebGPU.cpp:150-154 | The PS table loses only the given handle. The VS table and the current handles are unchanged. |
| `ShaderWebGPU.CShaderWebGPU.SetVS` | Siv3D/src/Siv3D-Platform/WebGPU/Siv3D/Shader/WebGPU/CShader_WebGPU.cpp:156-159 | Only the current VS changes, to the given handle. The handle is not validated. |
| `ShaderWebGPU.CShaderWebGPU.SetPS` | Siv3D/src/Siv3D-Platform/WebGPU/Siv3D/Shader/WebGPU/CShader_WebGPU.cpp:161-164 | Only the current PS changes, to the given handle. The handle is not validated. |
| `ShaderWebGPU.CShaderWebGPU.GetBinaryVS` | Siv3D/src/Siv3D-Platform/WebGPU/Siv3D/Shader/WebGPU/CShader_WebGPU.cpp:166-169 | It returns the stored binary of the handle's VS entry and changes nothing. |
| `ShaderWebGPU.CShaderWebGPU.GetBinaryPS` | Siv3D/src/Siv3D-Platform/WebGPU/Siv3D/Shader/WebGPU/CShader_WebGPU.cpp:171-174 | It returns the stored binary of the handle's PS entry and changes nothing. |
| `ShaderWebGPU.CShaderWebGPU.SetConstantBufferVS` | Siv3D/src/Siv3D-Platform/WebGPU/Siv3D/Shader/WebGPU/CShader_WebGPU.cpp:176-180 | The buffer is bound at the uniform block binding of (vertex stage, slot). No other binding changes. |
| `ShaderWebGPU.CShaderWebGPU.SetConstantBufferPS` | Siv3D/src/Siv3D-Platform/WebGPU/Siv3D/Shader/WebGPU/CShader_WebGPU.cpp:182-186 | The buffer is bound at the uniform block binding of (pixel stage, slot), through the same formula. No other binding changes. |
| `ShaderWebGPU.CShaderWebGPU.GetShaderModuleVS` | Siv3D/src/Siv3D-Platform/WebGPU/Siv3D/Shader/WebGPU/CShader_WebGPU.cpp:193-196 | It returns the shader module of the handle's VS entry and changes nothing. |
| `ShaderWebGPU.CShaderWebGPU.GetShaderModulePS` | Siv3D/src/Siv3D-Platform/WebGPU/Siv3D/Shader/WebGPU/CShader_WebGPU.cpp:198-201 | It returns the shader module of the handle's PS entry and changes nothing. |
| `ShaderWebGPU.CShaderWebGPU.UsePipeline` | Siv3D/src/Siv3D-Platform/WebGPU/Siv3D/Shader/WebGPU/CShader_WebGPU.cpp:203-218 | The pipeline requested is the one for the most recently set VS and PS, with `Default2D` and no vertex layout. Its bind group holds exactly the current uniform entries, in order, with that count. |
| `ShaderWebGPU.CShaderWebGPU.UsePipelineWithStandardVertexLayout` | Siv3D/src/Siv3D-Platform/WebGPU/Siv3D/Shader/WebGPU/CShader_WebGPU.cpp:220-235 | The same as `UsePipeline`, with the standard vertex layout. |
| `ShaderWebGPU.CShaderWebGPU.SetUniform` | Siv3D/src/Siv3D-Platform/WebGPU/Siv3D/Shader/WebGPU/CShader_WebGPU.cpp:237-240 | The uniform entries are replaced wholesale. Nothing else changes. |
| `ShaderWebGPU.CShaderWebGPU.Destruct` | Siv3D/src/Siv3D-Platform/WebGPU/Siv3D/Shader/WebGPU/CShader_WebGPU.cpp:29-41 | The engine PS list is cleared, then the PS table is destroyed, then the VS table. Both tables end empty. |
| `ShaderGLES3.CShaderGLES3.constructor` | Siv3D/src/Siv3D-Platform/OpenGLES3/Siv3D/Shader/GLES3/CShader_GLES3.cpp:21-24 | The manager starts with empty tables, no null placeholders and no program pipeline (name 0). |
| `ShaderGLES3.CShaderGLES3.Init` | Siv3D/src/Siv3D-Platform/OpenGLES3/Siv3D/Shader/GLES3/CShader_GLES3.cpp:40-78 | It succeeds exactly when both null objects are initialized and the generated name is nonzero. The null VS is registered first, then the null PS. A failed VS gives the VS error with both tables untouched. A failed PS gives the PS error after the null VS is registered, with the PS table untouched. Either failure returns before the pipeline is generated. Name 0 gives the pipeline error, after both placeholders are registered. |
| `ShaderGLES3.CShaderGLES3.CreateVSFromFile` | Siv3D/src/Siv3D-Platform/OpenGLES3/Siv3D/Shader/GLES3/CShader_GLES3.cpp:80-90 | The new VS table and the handle equal `CreateFromFile` of the old VS table. Only the VS table changes. |
| `ShaderGLES3.CShaderGLES3.CreateVSFromSource` | Siv3D/src/Siv3D-Platform/OpenGLES3/Siv3D/Shader/GLES3/CShader_GLES3.cpp:92-104 | The new VS table and the handle equal `CreateFromSource` of the compiled object. Only the VS table changes. |
| `ShaderGLES3.CShaderGLES3.CreatePSFromFile` | Siv3D/src/Siv3D-Platform/OpenGLES3/Siv3D/Shader/GLES3/CShader_GLES3.cpp:106-116 | The new PS table and the handle equal `CreateFromFile` of the old PS table. Only the PS table changes. |
| `ShaderGLES3.CShaderGLES3.CreatePSFromSource` | Siv3D/src/Siv3D-Platform/OpenGLES3/Siv3D/Shader/GLES3/CShader_GLES3.cpp:118-130 | The new PS table and the handle equal `CreateFromSource` of the compiled object. Only the PS table changes. |
| `ShaderGLES3.CShaderGLES3.ReleaseVS` | Siv3D/src/Siv3D-Platform/OpenGLES3/Siv3D/Shader/GLES3/CShader_GLES3.cpp:132-136 | The VS table loses only the given handle. Nothing else changes. |
| `ShaderGLES3.CShaderGLES3.ReleasePS` | Siv3D/src/Siv3D-Platform/OpenGLES3/Siv3D/Shader/GLES3/CShader_GLES3.cpp:138-142 | The PS table loses only the given handle. Nothing else changes. |
| `ShaderGLES3.CShaderGLES3.SetVS` | Siv3D/src/Siv3D-Platform/OpenGLES3/Siv3D/Shader/GLES3/CShader_GLES3.cpp:144-148 | The vertex stage of the manager's pipeline gets the program of the handle's entry. For the null handle, that is the null shader's program. |
| `ShaderGLES3.CShaderGLES3.SetPS` | Siv3D/src/Siv3D-Platform/OpenGLES3/Siv3D/Shader/GLES3/CShader_GLES3.cpp:150-158 | The fragment stage of the manager's pipeline gets the entry's program. Every call appends one more re-application of that shader's sampler uniforms. |
| `ShaderGLES3.CShaderGLES3.GetBinaryVS` | Siv3D/src/Siv3D-Platform/OpenGLES3/Siv3D/Shader/GLES3/CShader_GLES3.cpp:160-163 | It returns the stored binary of the handle's VS entry and changes nothing. |
| `ShaderGLES3.CShaderGLES3.GetBinaryPS` | Siv3D/src/Siv3D-Platform/OpenGLES3/Siv3D/Shader/GLES3/CShader_GLES3.cpp:165-168 | It returns the stored binary of the handle's PS entry and changes nothing. |
| `ShaderGLES3.CShaderGLES3.SetConstantBufferVS` | Siv3D/src/Siv3D-Platform/OpenGLES3/Siv3D/Shader/GLES3/CShader_GLES3.cpp:170-174 | The buffer is bound at the uniform block binding of (vertex stage, slot). No other binding changes. |
| `ShaderGLES3.CShaderGLES3.SetConstantBufferPS` | Siv3D/src/Siv3D-Platform/OpenGLES3/Siv3D/Shader/GLES3/CShader_GLES3.cpp:176-180 | The buffer is bound at the uniform block binding of (pixel stage, slot), through the same formula. No other binding changes. |
| `ShaderGLES3.CShaderGLES3.UsePipeline` | Siv3D/src/Siv3D-Platform/OpenGLES3/Siv3D/Shader/GLES3/CShader_GLES3.cpp:182-186 | No monolithic program stays current, and the manager's pipeline is bound. |
| `ShaderGLES3.CShaderGLES3.Destruct` | Siv3D/src/Siv3D-Platform/OpenGLES3/Siv3D/Shader/GLES3/CShader_GLES3.cpp:26-38 | The pipeline is deleted only if its name is nonzero, and the name becomes 0. Then the PS table is destroyed, then the VS table. The pipeline is deleted before the shader tables whose programs its stages hold, not after them. |

## Left out

- HandleTables.Erase: erasing the null handle is assumed to be a no-op. The manager code calls `erase` with no null check, and the table's implementation lies outside the two modelled files. `ShaderRegistry.NullEntrySurvives` depends on this assumption for its `Release(NullHandle)` case.

- Graphics API calls (`glUseProgramStages`, `glBindBufferBase`, `glBindProgramPipeline`, `glUseProgram`, `CreateBindGroup`, `SetPipeline`, `SetBindGroup`, `glDeleteProgramPipelines`) are not performed. Their effect is recorded in ghost fields.
- The WebGPU pipeline cache (`m_pipeline.getPipeline*`, `m_pipeline.init`) is not modelled: its class is outside this model. Only the key requested is recorded, and only the fact that `init` reached the cache's initialization. Lookup, reuse, pipeline building and build failure are not modelled.
- `getEnginePS` is left out. The loading of engine pixel shaders is commented out in `init`, so the list it indexes is always empty. `enginePSs` appears only where the destructor clears it.
- The WebGPU device (`m_device`, from the renderer) is not modelled. Compilation is the `compile` parameter.
- Shader compilation and linking, and the uniform block wiring done at compile time, happen inside the shader object classes, which are outside this model. `MakeUniformBlockBinding` is an arbitrary function fixed at construction, so its formula is not modelled.
- File reading (`TextReader`) is an `Option<string>` input.
- Exceptions: an `EngineError` is a returned `Outcome`. After a PS failure in `Init`, the model keeps the partial state (the null VS is registered), as the source does before throwing.
- Logging (`LOG_SCOPED_TRACE`) is not modelled.
- Integer widths are not modelled: slots are `uint32` and program and pipeline names are `GLuint`, but all of them are unbounded naturals here. `VertexShader::IDType` and `PixelShader::IDType` share one handle type.
- The handle table's internals are not modelled beyond the contract the managers use. Calling `setNullData` twice overwrites the entry here rather than failing. Erasing an absent handle does nothing. Looking up an absent handle is excluded by a precondition, since well-behaved callers never do it. The order in which `destroy` frees the null and non-null entries is not modelled.
- `RasterizerState` has only `Default2D`, the one state these managers request. The vertex layout is either empty or the standard one.
- The initial values of `m_currentVS`, `m_currentPS` and `m_pipeline` are set in a header outside this model. They are taken to be the null handle and 0.
- `GLES3PixelShader.hpp` only shapes the abstract shader object.
