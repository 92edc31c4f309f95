# Flycast Vulkan pipeline translator, modelled in Dafny

Flycast renders Dreamcast PowerVR display lists with Vulkan. For each
polygon, `PipelineManager::CreatePipeline` turns the decoded PowerVR state
into one Vulkan graphics-pipeline configuration. That state is the ISP/TSP
words, the parameter control word, the texture control word and `tileclip`.
The function then builds the pipeline and stores it in the manager's
`pipelines` map under `hash(listType, sortTriangles, &pp)`.

This project models that translation and the map update:

- `hardware.dfy` (`PvrHardware`): the decoded polygon fields as bounded
  naturals and booleans, the list type, and the renderer state the
  translation reads. That state is the per-strip sorting setting and the
  frame's fog clamp colours.
- `vulkan.dfy` (`VkState`): the Vulkan values produced. It also gives
  enough of Vulkan's meaning to say what a translation means: which
  fragments a compare op passes, which faces a cull mode drops, and what
  each blend factor weighs by.
- `pipeline_rules.dfy` (`PipelineRules`): `getBlendFactor`, the
  `depthOps` table, culling, depth compare and write, stencil, colour
  blending, and the fragment-shader parameters.
- `pipeline_cache.dfy` (`PipelineCache`): descriptor assembly, the
  `PipelineManager` class with its `pipelines` map and `CreatePipeline`,
  and lemmas about what any sequence of calls leaves in the map.

The key hash, the shader manager's `GetVertexShader`/`GetFragmentShader`
and the device's pipeline build are parameters. They are the
function-valued fields of `PipelineCache.Services`.

Three behaviours of `CreatePipeline` worth noting:

- Vulkan's `StencilOpState` constructor takes failOp, passOp, depthFailOp,
  compareOp, compareMask, writeMask and reference, in that order. So
  `stencilOpStateSet` (pipeline.cpp:126) has compare mask 0, write mask
  0x80 and reference 0x80. All three of its ops are Keep, so neither
  stencil state ever writes the stencil buffer.
- Depth writes are off for every list type when triangles are sorted per
  list (`sortTriangles` and not `PerStripSorting`, pipeline.cpp:114-115).
  Punch-through polygons are included. Only otherwise do they ignore Z
  write disable (pipeline.cpp:118-121).
- The map store at pipeline.cpp:237 overwrites whatever entry the key
  already has. The function does not look the key up first.

## Model

| member | source | states |
|---|---|---|
| `PipelineRules.BlendFactorFor` | core/rend/vulkan/pipeline.cpp:36-58 | Succeeds exactly for instructions 0..7; anything else is the fatal "unsupported blend instruction" error. Each factor weighs by the hardware's meaning of the instruction in that slot: zero, one, other operand's colour or its inverse, source alpha or its inverse, destination alpha or its inverse. |
| `PipelineRules.BlendFactorRoundTrip` | core/rend/vulkan/pipeline.cpp:36-58 | Per slot, translation is injective and `InstrFor` inverts it in both directions. |
| `PipelineRules.BlendColourIsOtherOperand` | core/rend/vulkan/pipeline.cpp:43-46 | A slot never weighs by its own colour: colour instructions in the source slot read the destination, and in the destination slot the source. |
| `PipelineRules.CullModeFor` | core/rend/vulkan/pipeline.cpp:95-97 | 3 gives Back, 2 gives Front, 0 and 1 give None. Mode 2 culls exactly front faces, mode 3 exactly back faces, and other modes nothing. |
| `PipelineRules.DepthOpsDecode` | core/rend/vulkan/pipeline.cpp:24-34 | Entry m of `depthOps` passes exactly the fragments that the 3-bit mode m accepts when read as less/equal/greater bits. |
| `PipelineRules.DepthCompareOp` | core/rend/vulkan/pipeline.cpp:108-112 | Punch-through, and translucent with sorted triangles, always get GreaterOrEqual. Otherwise the op passes exactly what the polygon's depth mode accepts. |
| `PipelineRules.DepthWriteEnabled` | core/rend/vulkan/pipeline.cpp:113-124 | Depth writes happen iff triangles are not sorted per list, and either the list is punch-through or Z write disable is clear. |
| `PipelineRules.DepthStencilFor` | core/rend/vulkan/pipeline.cpp:126-138 | The depth test is always on and depth bounds always off. The stencil test is on iff the list is opaque or punch-through. The front state is the "set" state iff the shadow flag is set, otherwise the no-op state. The back state is always the no-op state. |
| `PipelineRules.ColorBlendFor` | core/rend/vulkan/pipeline.cpp:140-173 | Blending is on iff the list is translucent or punch-through, using `getBlendFactor` of SrcInstr (source slot) and DstInstr (destination slot). Otherwise all factors are Zero. Alpha factors always equal the colour factors, both ops add, and all four channels are written. |
| `PvrHardware.TileClipMode` | core/rend/vulkan/pipeline.cpp:193 | `tileclip >> 28` is below 16 and is the top nibble of the 32-bit word. |
| `PipelineRules.ClipTestFor` | core/rend/vulkan/pipeline.cpp:193-204 | The clip test is 1 iff the mode is 2, -1 iff it is 3, and 0 otherwise. So a fragment passes inside-only for mode 2, outside-only for mode 3, and always otherwise. |
| `PipelineRules.FragmentParamsFor` | core/rend/vulkan/pipeline.cpp:189-212 | Alpha test is on iff punch-through. Trilinear is on iff textured, FilterMode > 1 and not alpha-tested. Clamping is on iff ColorClamp is set and the fog clamp range is not the full range. Bump map is on iff the pixel format is the bump-map format. The clip test is exactly `ClipTestFor(tileclip)` (1, -1 or 0, as above) and fog is 2. The PCW and TSP flags are copied. |
| `PipelineCache.PipelineManager.CreatePipeline` | core/rend/vulkan/pipeline.cpp:61-238 | The map afterwards is the old map with the key `hash(listType, sortTriangles, pp)` set to the build of the assembled descriptor. Any old entry under that key is overwritten; all other entries are unchanged and no key is removed. |
| `PipelineCache.CacheAfterStep` | core/rend/vulkan/pipeline.cpp:237-238 | A sequence of calls is the fold of single `CreatePipeline` inserts, in call order. |
| `PipelineCache.CacheAfterKeys` | core/rend/vulkan/pipeline.cpp:237-238 | After any sequence of calls, a key is present iff it was present before or some call hashed to it. The map never shrinks. |
| `PipelineCache.CacheAfterLatest` | core/rend/vulkan/pipeline.cpp:237-238 | The entry under a key is the pipeline built by the last call that hashed to that key. |
| `PipelineCache.CacheAfterUntouched` | core/rend/vulkan/pipeline.cpp:237-238 | A key that no call hashed to keeps its old entry, or stays absent. |
| `PipelineCache.DescribeReadsCanonicalFields` | core/rend/vulkan/pipeline.cpp:89-213 | The descriptor does not depend on TSP fog control or the low 28 bits of `tileclip`. It depends only on the fields `Canonical` keeps, plus the list type, the sort flag and the renderer state. |
| `PipelineCache.SameFieldsSamePipeline` | core/rend/vulkan/pipeline.cpp:89-238 | Two calls that agree on list type, sort flag, renderer state and every field the translation reads store the same pipeline. |
| `PipelineCache.OpaquePolicy` | core/rend/vulkan/pipeline.cpp:107-212 | Opaque: depth op from `depthOps[DepthMode]`, depth write as Z write disable allows unless sorted per list, stencil on, no blending, no alpha test. |
| `PipelineCache.TranslucentPolicy` | core/rend/vulkan/pipeline.cpp:107-212 | Translucent: GreaterOrEqual when sorted, else the table op. No depth write when sorted per list. Stencil off, blending on, no alpha test. |
| `PipelineCache.PunchThroughPolicy` | core/rend/vulkan/pipeline.cpp:107-212 | Punch-through: GreaterOrEqual. Depth written iff not sorted per list. Stencil on, blending on, alpha test on, never trilinear. |

## Left out

- Vertex input bindings and attributes, input assembly, viewport, multisample and dynamic state, shader-stage structs, the constant rasterization fields `depthClampEnable`, `rasterizerDiscardEnable`, `polygonMode` and `depthBiasEnable`, the colour-blend state's `logicOpEnable` and `logicOp`, and the `GraphicsPipelineCreateInfo` plumbing. These are fixed layouts handed to the Vulkan API and involve no decisions.
- Floating-point fields: depth bias, line width and blend constants.
- The bit layouts of the ISP, TSP, PCW and TCW words. Their headers are not part of this model, so the fields arrive already decoded, with the ranges their widths allow.
- `PixelBumpMap` is taken as 4, the PowerVR texture control word's bump-map pixel format code. The header that defines it is not part of this model.
- `hash`, the shader manager, `createGraphicsPipelineUnique`, the render pass, the pipeline layout and the device's pipeline cache. They are function parameters (`Services`), and a built pipeline is an opaque handle computed from the descriptor. The model therefore does not capture that each build creates a distinct object.
- `Services.hash` receives only the list type, the sort flag and the polygon, just as in the source. `SameFieldsSamePipeline` therefore needs equal renderer state as well. Nothing is claimed about whether the real hash separates every field the translation reads.
- `BlendFactorFor`: after `die`, the source returns eZero. The model stops at the error value instead.
- Lookup before building, cache hits and "built at most once" are not modelled. This file only inserts.
- Concurrent access to the map is not modelled.
- The list types other than opaque, translucent and punch-through are one case, `OtherList`. None of them takes a special branch.
