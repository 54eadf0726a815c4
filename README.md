# Meta shader compiler of the Intel XGL driver

The Intel XGL driver builds its own fragment shaders for copies, clears and
resolves. These are its "meta" shaders. It generates them with a small compiler,
`intel_meta_compiler`, which is built on the driver's blorp instruction emitter.
For a given meta shader id, that compiler does four things:

- binds the shader's push constants to elements of one register row
  (`alloc_pcb_regs`);
- hands out general registers to the remaining operands from a running
  counter (`alloc_regs`);
- runs one emission routine (`emit_copy_mem`, `emit_clear_color` or
  `emit_clear_depth`);
- copies the finished program into a freshly allocated buffer (`codegen`).

The entry point `intel_pipeline_shader_compile_meta` then fills in the
pipeline-shader record. Before that, `initialize_brw_context` maps the GPU
generation to a device description.

The project has four modules:

- `BrwReg`: the vocabulary of the foreign emitter. It defines register
  operands as a flat record (file, number, sub-register, region, type,
  immediate bits). It models the register helpers (`retype`, `vec16`,
  `offset`, `suboffset`, `stride`, `brw_vec1_grf`, …) as field updates. It
  models the four emitter primitives as abstract instruction records.
- `MetaLayout`: the value-level snapshot of the compiler's operands. It gives
  the reference definition of what the two allocators bind (`AllocPcb`,
  `PlanRegs`, `Layout`). It proves the layout properties: the regions do not
  overlap, the running counter agrees with the closed form, and push-constant
  elements are distinct.
- `MetaEmit`: the instruction sequence each routine appends, which routine
  each id runs, what each routine writes into the message registers, and the
  poison analysis. Every push-constant operand starts as the poison immediate
  `0x12345678`. Every id other than the clears and COPY_MEM takes
  the clear-colour path with its clear values never bound, so its program
  moves poison into the render target. `PoisonReadIff` states this exactly.
- `MetaCompiler`: the compiler as a class whose methods update its fields and
  append to its instruction stream. Each method is proved against the
  `MetaLayout` / `MetaEmit` definitions. The module also holds the generation
  switch and the entry point, which writes a `PipelineShader` record.

## Model

| member | source | states |
|---|---|---|
| MetaCompiler.DeviceInfoFor | icd/intel/compiler/pipeline/pipeline_compiler_interface_meta.cpp:46-60 | Generation 7.5 is gen 7 with the Haswell flag, 7 is gen 7 and 6 is gen 6: each direction of each fact is stated as an iff. Any other generation is refused, as the source's assertion refuses it. |
| MetaCompiler.Compiler.constructor | icd/intel/compiler/pipeline/pipeline_compiler_interface_meta.cpp:146-167 | Every clear value, source offset, layer, lod, destination offset and extent width starts as the poison immediate. The instruction stream starts empty. The two arrays are fresh and distinct. |
| MetaCompiler.Compiler.AllocPcbRegs | icd/intel/compiler/pipeline/pipeline_compiler_interface_meta.cpp:169-218 | The new operands are exactly `AllocPcb` of the old ones: clears bind the four clear values and return, and the other groups bind the source offsets plus their group's extras. Nothing else changes, and no instruction is emitted. |
| MetaLayout.ClearLayout | icd/intel/compiler/pipeline/pipeline_compiler_interface_meta.cpp:172-179 | For CLEAR_COLOR and CLEAR_DEPTH, the push-constant row holds the clear values at elements 0..3 and every other push-constant operand is poison. |
| MetaLayout.SampledCopyLayout | icd/intel/compiler/pipeline/pipeline_compiler_interface_meta.cpp:184-196 | For COPY_MEM and the image copies, the source x/y offsets, layer and lod are at elements 0..3, and the clear values stay poison. |
| MetaLayout.CopyToMemLayout | icd/intel/compiler/pipeline/pipeline_compiler_interface_meta.cpp:197-206 | For image-to-memory copies, the destination memory offset and extent width are added at elements 4 and 5. |
| MetaLayout.MemToImgLayout | icd/intel/compiler/pipeline/pipeline_compiler_interface_meta.cpp:207-209 | For COPY_MEM_TO_IMG, the source offsets are at elements 0 and 1 and the extent width at element 2. Layer, lod and memory offset stay poison. |
| MetaLayout.OffsetsOnlyLayout | icd/intel/compiler/pipeline/pipeline_compiler_interface_meta.cpp:210-216 | For the resolves and every unnamed id, only the two source offsets are bound. |
| MetaLayout.PushConstantSlotsDistinct | icd/intel/compiler/pipeline/pipeline_compiler_interface_meta.cpp:169-218 | For every id, no two bound push constants share an element of the row, and every bound element index is below 8. |
| MetaCompiler.Compiler.AllocRegs | icd/intel/compiler/pipeline/pipeline_compiler_interface_meta.cpp:220-244 | The new operands are exactly `PlanRegs` of the old ones from base_grf 2: the push-constant row, then frag_x, frag_y, four 8-register texels, tmp1 and tmp2 at the counter's successive values. The loop over the texels is proved with its invariant. |
| MetaLayout.PlanFromUnbound | icd/intel/compiler/pipeline/pipeline_compiler_interface_meta.cpp:220-244 | alloc_regs overwrites every vector operand. Any starting state whose push constants are all poison therefore plans to the same `Layout(id)`. |
| MetaLayout.LayoutFixedRegions | icd/intel/compiler/pipeline/pipeline_compiler_interface_meta.cpp:226-243 | The vector operands sit at r3, r5, r7, r15, r23, r31, r39 and r41 for every id. |
| MetaLayout.SlotStarts | icd/intel/compiler/pipeline/pipeline_compiler_interface_meta.cpp:222-243 | The counter walk from base_grf over the widths 1, 2, 2, 8, 8, 8, 8, 2, 2 passes through 2, 3, 5, 7, 15, 23, 31, 39 and 41. |
| MetaLayout.WalkDisjoint | icd/intel/compiler/pipeline/pipeline_compiler_interface_meta.cpp:222-243 | With a counter that only moves forward, each region ends at or before the start of every later region. The proof is by induction. |
| MetaLayout.LayoutFollowsWalk | icd/intel/compiler/pipeline/pipeline_compiler_interface_meta.cpp:220-244 | The closed-form layout agrees with the running counter: vector operand k is a general register at the counter's (k+1)-th value, and every bound push constant is in the first row. |
| MetaLayout.LayoutRegionsDisjoint | icd/intel/compiler/pipeline/pipeline_compiler_interface_meta.cpp:220-244 | No two planned vector regions overlap. None lies in the push-constant row or below base_grf, so r0 and r1 are never handed out. Every bound push constant is in row base_grf. |
| MetaCompiler.Compiler.EmitComputeFragCoord | icd/intel/compiler/pipeline/pipeline_compiler_interface_meta.cpp:246-252 | It appends exactly two adds: the subspan X and Y origins of r1 (elements 4 and 5, region <2;4,0>) plus the packed-vector immediates 0x10101010 and 0x11001100, into frag_x and frag_y read as 16 words. |
| MetaEmit.TilesMessage | icd/intel/compiler/pipeline/pipeline_compiler_interface_meta.cpp:256-275 | The message writes that precede a send: each writes message registers, the first starts at the message base, each starts where the previous one ends (a 16-wide 32-bit operand spans two registers), and the last ends at base + length. |
| MetaEmit.TiledWritesDisjoint | icd/intel/compiler/pipeline/pipeline_compiler_interface_meta.cpp:271-274 | Writes that tile a message never overlap: each ends at or before the start of every later one. The proof is by induction. |
| MetaEmit.TiledWritesInside | icd/intel/compiler/pipeline/pipeline_compiler_interface_meta.cpp:271-275 | Every write of a tiling lies inside the message it tiles. |
| MetaEmit.TiledWritesSeparate | icd/intel/compiler/pipeline/pipeline_compiler_interface_meta.cpp:271-275 | The writes of a tiling, taken together, are pairwise apart and all inside the message. |
| MetaEmit.CopyMemFetch | icd/intel/compiler/pipeline/pipeline_compiler_interface_meta.cpp:261-268 | The first two adds compute frag_x and frag_y. The third reads frag_x and src_offset_x, and on its own fills the 2-register message of the texel fetch at base_mrf. That fetch writes texels[0] and is the program's only fetch. |
| MetaEmit.CopyMemChannels | icd/intel/compiler/pipeline/pipeline_compiler_interface_meta.cpp:270-275 | After the fetch, the four channel moves of texels[0] fill the render-target message from base_mrf, back to back and in order. Each channel lands as far into the message as it lies into the texel. |
| MetaCompiler.Compiler.EmitCopyMem | icd/intel/compiler/pipeline/pipeline_compiler_interface_meta.cpp:254-276 | The stream grows by exactly the COPY_MEM sequence over the current operands. The channel loop is proved with its invariant. |
| MetaEmit.ClearColorMessage | icd/intel/compiler/pipeline/pipeline_compiler_interface_meta.cpp:278-291 | The four moves carry clear_vals[0..3] in order. Back to back, they fill the whole message that the final render-target write sends from base_mrf. Nothing is fetched. |
| MetaCompiler.Compiler.EmitClearColor | icd/intel/compiler/pipeline/pipeline_compiler_interface_meta.cpp:278-291 | The stream grows by exactly the clear-colour sequence over the current clear values. The loop is proved with its invariant. |
| MetaEmit.ClearDepthMessage | icd/intel/compiler/pipeline/pipeline_compiler_interface_meta.cpp:293-305 | The one move carries clear_vals[0] into the message register just past the four 2-register colour slots. It ends exactly where the render-target message from base_mrf ends. |
| MetaCompiler.Compiler.EmitClearDepth | icd/intel/compiler/pipeline/pipeline_compiler_interface_meta.cpp:293-305 | The stream grows by exactly the clear-depth sequence over clear_vals[0]. |
| MetaCompiler.Compiler.Codegen | icd/intel/compiler/pipeline/pipeline_compiler_interface_meta.cpp:307-324 | On success, the buffer holds the whole instruction stream and the size becomes its length. If allocation fails, there is no buffer and the caller's size is unchanged. |
| MetaEmit.Dispatch | icd/intel/compiler/pipeline/pipeline_compiler_interface_meta.cpp:334-370 | COPY_MEM runs emit_copy_mem iff it is COPY_MEM, and likewise for CLEAR_DEPTH and emit_clear_depth. Every other id, unknown ones included, runs emit_clear_color. All three are stated as iffs. |
| MetaEmit.Emission | icd/intel/compiler/pipeline/pipeline_compiler_interface_meta.cpp:334-370 | Whatever the id, the emitted program is non-empty and ends with its one render-target write, and no earlier instruction is a render-target write. |
| MetaCompiler.Compiler.Compile | icd/intel/compiler/pipeline/pipeline_compiler_interface_meta.cpp:326-373 | first_curbe_grf is base_grf. The operands are planned by `PlanRegs`. The stream grows by the routine of id over the planned operands. Code and size are as in codegen. |
| MetaEmit.PoisonReadIff | icd/intel/compiler/pipeline/pipeline_compiler_interface_meta.cpp:334-370 | A compiled program reads the poison immediate, in any type or region, iff its id is neither a clear nor COPY_MEM. |
| MetaEmit.PlaceholderMovesPoison | icd/intel/compiler/pipeline/pipeline_compiler_interface_meta.cpp:338-369 | On the placeholder path (copies other than COPY_MEM, resolves, unknown ids), all four moves of emit_clear_color move poison into the message. |
| MetaEmit.CopyMemReadsBound | icd/intel/compiler/pipeline/pipeline_compiler_interface_meta.cpp:254-276 | For COPY_MEM, the planner binds src_offset_x, frag_x and texels[0] to general registers. Every operand the program reads is then a register or one of the two frag-coord patterns, so it never reads poison, however retyped. |
| MetaEmit.CopyMemReadsRegisters | icd/intel/compiler/pipeline/pipeline_compiler_interface_meta.cpp:254-276 | Whenever frag_x, src_offset_x and texels[0] are registers, every source of the COPY_MEM sequence is a register or a frag-coord pattern. |
| MetaEmit.UnboundOffsetIsRead | icd/intel/compiler/pipeline/pipeline_compiler_interface_meta.cpp:263-265 | emit_copy_mem reads src_offset_x, even though retyped to words: left unbound, it would make the program read poison. |
| MetaCompiler.UsesFor | icd/intel/compiler/pipeline/pipeline_compiler_interface_meta.cpp:394-401 | The shader uses computed depth iff the id is CLEAR_DEPTH; every other id sets no use flag. |
| MetaCompiler.CompiledProgram | icd/intel/compiler/pipeline/pipeline_compiler_interface_meta.cpp:385-388 | A compiler compiled straight after construction holds the routine of id over `Layout(id)`, and that program is non-empty. |
| MetaCompiler.CompileFresh | icd/intel/compiler/pipeline/pipeline_compiler_interface_meta.cpp:381-388 | The generation switch, construction and compile together give first_curbe_grf = base_grf. If a buffer is allocated, it holds the routine of id over `Layout(id)` and the size is its positive length. Otherwise the size is unchanged. |
| MetaCompiler.CompileMeta | icd/intel/compiler/pipeline/pipeline_compiler_interface_meta.cpp:377-405 | The result is success iff a code buffer was produced. If so, the code is the routine of id over `Layout(id)` and codeSize is its positive length; if not, codeSize is unchanged. The function also sets out_count 1, surface_count to the binding-table size, urb_grf_start to base_grf, and uses as the id's switch gives it. |

## Left out

- The binary encoding of instructions and `get_program` are foreign to this file. A program is the abstract instruction list the emitter primitives append.
- MetaCompiler.Compiler.Codegen: the code size is counted in instruction records, not in bytes of encoded code.
- MetaCompiler.Compiler.Codegen: `icd_alloc` is reduced to a choice that may fail, and `memcpy` to handing over the list.
- MetaCompiler.Compiler.Codegen: the case of a null `code_size` pointer is not modelled. The entry point always passes one.
- The rest of `initialize_brw_context` (lines 62-98: the gt value, feature flags, screen, stage setup and shader program) configures foreign code. Only the generation switch is modelled.
- MetaCompiler.DeviceInfoFor: with assertions disabled, an unsupported generation leaves gen 0 and the compile goes on. The model instead refuses that input, as the assertion does.
- MetaEmit.RegsSpanned: the registers a message operand covers are its region width times its element size, rounded up to 32-byte registers. Vertical stride and horizontal stride are not taken into account; every message operand here is a contiguous row.
- Register sub-offsets are element indices. The byte scaling that the encoder's `suboffset` applies by element size is foreign and not modelled.
- BRW_BLORP_NUM_BINDING_TABLE_ENTRIES is defined outside this file. It is a constant with no known value.
- Only `first_curbe_grf` of `brw_blorp_prog_data` is modelled. The compile zeroes the other fields and never reads them.
- The `stderr` argument of `get_program` is I/O and is left out.
- frag_x, frag_y, texels, tmp1 and tmp2 are indeterminate before `alloc_regs` in the source. The model leaves them unconstrained too, and every property is stated after `alloc_regs`.
- The `switch` statements over the shader id are written as tests of id groups. The enum `intel_dev_meta_shader` is regrouped as copy/image-kind/sample-count constructors plus `OtherId` for every enumerator no switch names.
- MetaCompiler.CompileFresh: it is the compiling half of `intel_pipeline_shader_compile_meta`, split out so that the entry point only writes the shader record. `rzalloc`/`ralloc_free` of the context are not modelled.
- tmp1 and tmp2 are allocated but read by no routine in this file. The model plans them and proves their placement, and nothing more.
