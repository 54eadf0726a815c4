/** The meta compiler object (intel_meta_compiler) and the driver entry point
 *  intel_pipeline_shader_compile_meta.
 *
 *  The compiler keeps its operands in fields that alloc_pcb_regs and
 *  alloc_regs overwrite, and inherits from the emitter an instruction stream
 *  that every emit_* routine appends to.  Each method is proved against the
 *  value-level definitions of MetaLayout and MetaEmit.
 */
module MetaCompiler {
  import opened BrwReg
  import opened MetaLayout
  import opened MetaEmit

  datatype Option<T> = None | Some(value: T)

  /** Hardware generations as initialize_brw_context tells them apart. */
  datatype GpuGen = Gen6 | Gen7 | Gen75 | OtherGen

  /** The part of the device description the generation switch fills in. */
  datatype DeviceInfo = DeviceInfo(gen: nat, isHaswell: bool)

  /** The generation switch of initialize_brw_context: 7.5 is generation 7
   *  with the Haswell flag, 7 and 6 are themselves.  Any other generation
   *  fails an assertion there, so callers must not pass one. */
  function DeviceInfoFor(g: GpuGen): (d: DeviceInfo)
    requires !g.OtherGen?
    ensures d.isHaswell <==> g.Gen75?
    ensures d.gen == 7 <==> g.Gen7? || g.Gen75?
    ensures d.gen == 6 <==> g.Gen6?
  {
    match g
    case Gen75 => DeviceInfo(7, true)
    case Gen7 => DeviceInfo(7, false)
    case Gen6 => DeviceInfo(6, false)
  }

  /** What compile writes into brw_blorp_prog_data after zeroing it. */
  datatype ProgData = ProgData(firstCurbeGrf: int)

  class Compiler {
    const devInfo: DeviceInfo
    const id: MetaShaderId

    const clearVals: array<Reg>
    var srcOffsetX: Reg
    var srcOffsetY: Reg
    var srcLayer: Reg
    var srcLod: Reg
    var dstMemOffset: Reg
    var dstExtentWidth: Reg
    var fragX: Reg
    var fragY: Reg
    const texels: array<Reg>
    var tmp1: Reg
    var tmp2: Reg

    /** The instruction stream of the emitter base class. */
    var insns: seq<Instr>

    ghost predicate Valid() {
      clearVals.Length == 4 && texels.Length == 4 && clearVals != texels
    }

    /** The operand fields as one value. */
    function Bindings(): (ops: Operands)
      reads this`srcOffsetX, this`srcOffsetY, this`srcLayer, this`srcLod, this`dstMemOffset,
        this`dstExtentWidth, this`fragX, this`fragY, this`tmp1, this`tmp2, clearVals, texels
      requires Valid()
      ensures ops.WellFormed()
    {
      Operands(clearVals[..], srcOffsetX, srcOffsetY, srcLayer, srcLod, dstMemOffset, dstExtentWidth,
               fragX, fragY, texels[..], tmp1, tmp2)
    }

    /** Every push-constant operand starts as poison; frag_x, frag_y, texels,
     *  tmp1 and tmp2 are left unset until alloc_regs. */
    constructor (brw: DeviceInfo, id: MetaShaderId)
      ensures Valid() && fresh(clearVals) && fresh(texels)
      ensures this.devInfo == brw && this.id == id
      ensures Unbound(Bindings())
      ensures insns == []
    {
      this.devInfo := brw;
      this.id := id;
      clearVals := new Reg[4];
      texels := new Reg[4];
      insns := [];
      new;
      for i := 0 to clearVals.Length
        invariant forall k :: 0 <= k < i ==> clearVals[k] == POISON
        invariant insns == []
      {
        clearVals[i] := POISON;
      }
      assert clearVals[..] == [POISON, POISON, POISON, POISON];
      srcOffsetX := POISON;
      srcOffsetY := POISON;
      srcLayer := POISON;
      srcLod := POISON;
      dstMemOffset := POISON;
      dstExtentWidth := POISON;
    }

    /** alloc_pcb_regs: bind the push constants of id to elements of row grf.
     *  The source's two switches are written as tests of the id groups. */
    method AllocPcbRegs(grf: int)
      requires Valid()
      modifies this, clearVals
      ensures Valid()
      ensures Bindings() == AllocPcb(old(Bindings()), id, grf)
      ensures insns == old(insns)
    {
      if id.IsClear() {
        clearVals[0] := Retype(Vec1Grf(grf, 0), UD);
        clearVals[1] := Retype(Vec1Grf(grf, 1), UD);
        clearVals[2] := Retype(Vec1Grf(grf, 2), UD);
        clearVals[3] := Retype(Vec1Grf(grf, 3), UD);
        assert clearVals[..] == [PushConstant(grf, 0), PushConstant(grf, 1),
                                 PushConstant(grf, 2), PushConstant(grf, 3)];
        return;
      }

      srcOffsetX := Retype(Vec1Grf(grf, 0), UD);
      srcOffsetY := Retype(Vec1Grf(grf, 1), UD);

      if id.IsSampledCopy() {
        srcLayer := Retype(Vec1Grf(grf, 2), UD);
        srcLod := Retype(Vec1Grf(grf, 3), UD);
      } else if id.IsCopyToMem() {
        srcLayer := Retype(Vec1Grf(grf, 2), UD);
        srcLod := Retype(Vec1Grf(grf, 3), UD);
        dstMemOffset := Retype(Vec1Grf(grf, 4), UD);
        dstExtentWidth := Retype(Vec1Grf(grf, 5), UD);
      } else if id.CopyMemToImg? {
        dstExtentWidth := Retype(Vec1Grf(grf, 2), UD);
      }
      /* the resolves and unknown ids bind nothing more */
    }

    /** alloc_regs: a running register counter from base_grf hands out the
     *  push-constant row, frag_x, frag_y, the four texels, tmp1 and tmp2. */
    method AllocRegs()
      requires Valid()
      modifies this, clearVals, texels
      ensures Valid()
      ensures Bindings() == PlanRegs(old(Bindings()), id, BASE_GRF)
      ensures insns == old(insns)
    {
      var grf := BASE_GRF;

      AllocPcbRegs(grf);
      ghost var pcb := Bindings();
      grf := grf + 1;

      fragX := Retype(Vec8Grf(grf, 0), UD);
      grf := grf + 2;

      fragY := Retype(Vec8Grf(grf, 0), UD);
      grf := grf + 2;

      var i := 0;
      while i < texels.Length
        modifies texels
        invariant 0 <= i <= texels.Length
        invariant grf == BASE_GRF + 5 + 8 * i
        invariant forall k :: 0 <= k < i ==> texels[k] == TexelVector(BASE_GRF + 5 + 8 * k)
      {
        texels[i] := Retype(Vec16(Vec8Grf(grf, 0)), UD);
        grf := grf + 8;
        i := i + 1;
      }

      tmp1 := Retype(Vec8Grf(grf, 0), UD);
      grf := grf + 2;

      tmp2 := Retype(Vec8Grf(grf, 0), UD);
      grf := grf + 2;
      assert clearVals[..] == pcb.clearVals;
      assert texels[..] == PlanRegs(old(Bindings()), id, BASE_GRF).texels;
    }

    /** emit_add of the emitter. */
    method EmitAdd(dst: Reg, src0: Reg, src1: Reg)
      modifies this`insns
      ensures insns == old(insns) + [Add(dst, src0, src1)]
    {
      insns := insns + [Add(dst, src0, src1)];
    }

    /** emit_mov of the emitter. */
    method EmitMov(dst: Reg, src: Reg)
      modifies this`insns
      ensures insns == old(insns) + [Mov(dst, src)]
    {
      insns := insns + [Mov(dst, src)];
    }

    /** emit_texture_lookup of the emitter, with the texel-fetch opcode. */
    method EmitTextureLookup(dst: Reg, baseMrf: int, msgLength: int)
      modifies this`insns
      ensures insns == old(insns) + [Txf(dst, baseMrf, msgLength)]
    {
      insns := insns + [Txf(dst, baseMrf, msgLength)];
    }

    /** emit_render_target_write of the emitter. */
    method EmitRenderTargetWrite(src0: Reg, msgRegNr: int, msgLength: int, useHeader: bool)
      modifies this`insns
      ensures insns == old(insns) + [RtWrite(src0, msgRegNr, msgLength, useHeader)]
    {
      insns := insns + [RtWrite(src0, msgRegNr, msgLength, useHeader)];
    }

    /** emit_compute_frag_coord. */
    method EmitComputeFragCoord()
      modifies this`insns
      ensures insns == old(insns) + FragCoordTrace(fragX, fragY)
    {
      EmitAdd(Vec16(Retype(fragX, UW)), SUBSPAN_X, ImmV(FRAG_X_PATTERN));
      EmitAdd(Vec16(Retype(fragY, UW)), SUBSPAN_Y, ImmV(FRAG_Y_PATTERN));
    }

    /** emit_copy_mem: fetch the texel at the offset fragment coordinate and
     *  write its four channels to the render target. */
    method EmitCopyMem()
      requires Valid()
      modifies this`insns
      ensures insns == old(insns) + CopyMemTrace(Bindings())
    {
      ghost var trace := CopyMemTrace(Bindings());
      var mrf := Retype(Vec16(MessageReg(BASE_MRF)), UD);
      var mrfOffset := 0;

      EmitComputeFragCoord();

      EmitAdd(Offset(mrf, mrfOffset), Retype(fragX, UW), Retype(srcOffsetX, UW));
      mrfOffset := mrfOffset + 2;

      EmitTextureLookup(texels[0], BASE_MRF, mrfOffset);
      assert insns == old(insns) + trace[..4];

      mrfOffset := 0;
      for i := 0 to 4
        invariant mrfOffset == 2 * i
        invariant insns == old(insns) + trace[..4 + i]
      {
        EmitMov(Offset(mrf, mrfOffset), Offset(texels[0], i * 2));
        mrfOffset := mrfOffset + 2;
        PrefixStep(trace, 4 + i);
        AppendAssoc(old(insns), trace[..4 + i], [trace[4 + i]]);
      }
      EmitRenderTargetWrite(mrf, BASE_MRF, mrfOffset, false);
      PrefixStep(trace, 8);
      AppendAssoc(old(insns), trace[..8], [trace[8]]);
      assert trace[..9] == trace;
    }

    /** emit_clear_color: the four clear values into message offsets 0, 2, 4
     *  and 6, then the render-target write. */
    method EmitClearColor()
      requires Valid()
      modifies this`insns
      ensures insns == old(insns) + ClearColorTrace(clearVals[..])
    {
      ghost var trace := ClearColorTrace(clearVals[..]);
      var mrf := Retype(Vec16(MessageReg(BASE_MRF)), UD);
      var mrfOffset := 0;

      for i := 0 to 4
        invariant mrfOffset == 2 * i
        invariant insns == old(insns) + trace[..i]
      {
        EmitMov(Offset(mrf, mrfOffset), clearVals[i]);
        mrfOffset := mrfOffset + 2;
        PrefixStep(trace, i);
        AppendAssoc(old(insns), trace[..i], [trace[i]]);
      }

      EmitRenderTargetWrite(mrf, BASE_MRF, mrfOffset, false);
      PrefixStep(trace, 4);
      AppendAssoc(old(insns), trace[..4], [trace[4]]);
      assert trace[..5] == trace;
    }

    /** emit_clear_depth: clear_vals[0] into the depth slot past the four
     *  colour slots, then the render-target write. */
    method EmitClearDepth()
      requires Valid()
      modifies this`insns
      ensures insns == old(insns) + ClearDepthTrace(clearVals[0])
    {
      var mrf := Retype(Vec16(MessageReg(BASE_MRF)), UD);
      var mrfOffset := 4 * 2;

      EmitMov(Offset(mrf, mrfOffset), clearVals[0]);
      mrfOffset := mrfOffset + 2;

      EmitRenderTargetWrite(mrf, BASE_MRF, mrfOffset, false);
    }

    /** codegen: copy the finished instruction stream into a fresh buffer.
     *  The allocation may fail; then there is no buffer and the caller's
     *  size stays as it was. */
    method Codegen(codeSize: nat) returns (code: Option<seq<Instr>>, newCodeSize: nat)
      ensures code.Some? ==> code.value == insns && newCodeSize == |insns|
      ensures code.None? ==> newCodeSize == codeSize
    {
      var prog := insns;
      var progSize := |prog|;
      var gotBuffer: bool := *;
      if !gotBuffer {
        return None, codeSize;
      }
      code := Some(prog);
      newCodeSize := progSize;
    }

    /** compile: plan the registers, run the routine of id, package the code. */
    method Compile(codeSize: nat) returns (progData: ProgData, code: Option<seq<Instr>>, newCodeSize: nat)
      requires Valid()
      modifies this, clearVals, texels
      ensures Valid()
      ensures progData == ProgData(BASE_GRF)
      ensures Bindings() == PlanRegs(old(Bindings()), id, BASE_GRF)
      ensures insns == old(insns) + Emission(id, Bindings())
      ensures code.Some? ==> code.value == insns && newCodeSize == |insns|
      ensures code.None? ==> newCodeSize == codeSize
    {
      progData := ProgData(BASE_GRF);

      AllocRegs();

      match Dispatch(id) {
        case EmitCopyMem => EmitCopyMem();
        case EmitClearColor => EmitClearColor();
        case EmitClearDepth => EmitClearDepth();
      }

      code, newCodeSize := Codegen(codeSize);
    }
  }

  /** Flags of intel_pipeline_shader.uses. */
  datatype ShaderUse = ComputedDepth

  datatype XglResult = XglSuccess | XglErrorUnknown

  /** Number of binding-table entries of a meta program; its value is
   *  defined outside this file. */
  const NUM_BINDING_TABLE_ENTRIES: nat

  /** The uses switch: only CLEAR_DEPTH computes depth. */
  function UsesFor(id: MetaShaderId): (u: set<ShaderUse>)
    ensures ComputedDepth in u <==> id.ClearDepth?
    ensures !id.ClearDepth? ==> u == {}
  {
    match id
    case ClearDepth => {ComputedDepth}
    case _ => {}
  }

  /** The shader record the driver fills in (struct intel_pipeline_shader). */
  class PipelineShader {
    var code: Option<seq<Instr>>
    var codeSize: nat
    var outCount: nat
    var surfaceCount: nat
    var urbGrfStart: int
    var uses: set<ShaderUse>
  }

  /** A compiler built for id and compiled from scratch holds the routine of
   *  id over the layout of id, whatever the operands held before planning. */
  lemma CompiledProgram(initial: Operands, planned: Operands, id: MetaShaderId, log: seq<Instr>)
    requires initial.WellFormed() && Unbound(initial)
    requires planned == PlanRegs(initial, id, BASE_GRF)
    requires log == Emission(id, planned)
    ensures log == Emission(id, Layout(id)) && |log| > 0
  {
    PlanFromUnbound(initial, id);
  }

  /** The compiling half of intel_pipeline_shader_compile_meta: build a
   *  compiler for the device of gpu and the shader id, and compile it.  The
   *  program is the routine of id over the layout of id. */
  method CompileFresh(gpu: GpuGen, id: MetaShaderId, codeSize: nat)
      returns (progData: ProgData, code: Option<seq<Instr>>, newCodeSize: nat)
    requires !gpu.OtherGen?
    ensures progData.firstCurbeGrf == BASE_GRF
    ensures code.Some? ==> code.value == Emission(id, Layout(id)) && newCodeSize == |code.value| > 0
    ensures code.None? ==> newCodeSize == codeSize
  {
    var brw := DeviceInfoFor(gpu);
    var c := new Compiler(brw, id);
    ghost var initial := c.Bindings();
    progData, code, newCodeSize := c.Compile(codeSize);
    assert c.insns == Emission(id, c.Bindings());
    CompiledProgram(initial, c.Bindings(), id, c.insns);
  }

  /** intel_pipeline_shader_compile_meta: compile the meta shader id for a
   *  GPU of generation gpu into sh.  It succeeds exactly when the code buffer
   *  could be allocated; the program is then the routine of id over the
   *  layout of id, and codeSize its length. */
  method CompileMeta(sh: PipelineShader, gpu: GpuGen, id: MetaShaderId) returns (result: XglResult)
    requires !gpu.OtherGen?
    modifies sh
    ensures result == XglSuccess <==> sh.code.Some?
    ensures sh.code.Some? ==> sh.code.value == Emission(id, Layout(id)) && sh.codeSize == |sh.code.value|
    ensures sh.code.Some? ==> sh.codeSize > 0
    ensures sh.code.None? ==> sh.codeSize == old(sh.codeSize)
    ensures sh.outCount == 1
    ensures sh.surfaceCount == NUM_BINDING_TABLE_ENTRIES
    ensures sh.urbGrfStart == BASE_GRF
    ensures sh.uses == UsesFor(id)
  {
    var progData, code, codeSize := CompileFresh(gpu, id, sh.codeSize);
    sh.code := code;
    sh.codeSize := codeSize;

    sh.outCount := 1;
    sh.surfaceCount := NUM_BINDING_TABLE_ENTRIES;
    sh.urbGrfStart := progData.firstCurbeGrf;

    sh.uses := UsesFor(id);

    result := if sh.code.Some? then XglSuccess else XglErrorUnknown;
  }
}
