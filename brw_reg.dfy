/** Register operands and abstract instructions of the execution-unit emitter.
 *
 *  The meta compiler builds its operands with the register helpers of the
 *  driver's instruction encoder (brw_vec1_grf, brw_vec8_grf, brw_message_reg,
 *  retype, vec16, offset, suboffset, stride, brw_imm_ud, brw_imm_v) and hands
 *  them to the emitter primitives (emit_add, emit_mov, emit_texture_lookup,
 *  emit_render_target_write).  Those are foreign code; this module gives them
 *  an abstract meaning: a register is a value, and an emitted instruction is a
 *  record appended to an instruction log.
 */
module BrwReg {

  /** Register file of an operand: general registers, message registers, or
   *  the immediate "file" that brw_imm_* select. */
  datatype RegFile = GrfFile | MrfFile | ImmFile

  /** Element types used by the meta compiler: 32-bit unsigned, 16-bit
   *  unsigned, float (the default of the vec1/vec8 helpers) and the packed
   *  half-byte vector of an immediate. */
  datatype RegType = UD | UW | F | V

  /** A region <vstride; width, hstride> of an operand. */
  datatype Region = Region(vstride: nat, width: nat, hstride: nat)

  /** An operand, as one flat record like the encoder's own: register file,
   *  register number, sub-register element index, region, element type and,
   *  for an immediate, its bits. */
  datatype Reg = Reg(file: RegFile, nr: int, sub: nat, region: Region, ty: RegType, bits: int)
  {
    /** A general register: the kind of operand the layout planner binds. */
    predicate IsGrf() { file == GrfFile }
  }

  const ScalarRegion := Region(0, 1, 0)
  const Vec8Region := Region(8, 8, 1)
  const Vec16Region := Region(16, 16, 1)

  /** brw_imm_ud / brw_imm_v: an immediate of type ty holding bits. */
  function Imm(ty: RegType, bits: int): Reg {
    Reg(ImmFile, 0, 0, ScalarRegion, ty, bits)
  }

  /** The bits of the poison immediate. */
  const POISON_BITS := 0x12345678

  /** The immediate every push-constant operand holds until the planner binds it. */
  const POISON: Reg := Reg(ImmFile, 0, 0, ScalarRegion, UD, POISON_BITS)

  /** The poison immediate read any way at all: retype, stride, offset and
   *  suboffset change how an immediate is read, not which immediate it is. */
  predicate IsPoison(r: Reg) {
    r.file == ImmFile && r.bits == POISON_BITS
  }

  /** brw_vec1_grf(nr, sub): one float element of a general register. */
  function Vec1Grf(nr: int, sub: nat): Reg {
    Reg(GrfFile, nr, sub, ScalarRegion, F, 0)
  }

  /** brw_vec8_grf(nr, sub): eight float elements of a general register. */
  function Vec8Grf(nr: int, sub: nat): Reg {
    Reg(GrfFile, nr, sub, Vec8Region, F, 0)
  }

  /** brw_message_reg(nr): message register nr, eight float elements. */
  function MessageReg(nr: int): Reg {
    Reg(MrfFile, nr, 0, Vec8Region, F, 0)
  }

  /** brw_imm_v(bits): a packed vector immediate. */
  function ImmV(bits: int): Reg {
    Imm(V, bits)
  }

  /** retype(r, ty): the same bits read as another element type. */
  function Retype(r: Reg, ty: RegType): Reg {
    r.(ty := ty)
  }

  /** stride(r, vstride, width, hstride): the same register read with another region. */
  function Stride(r: Reg, vstride: nat, width: nat, hstride: nat): Reg {
    r.(region := Region(vstride, width, hstride))
  }

  /** vec16(r): stride(r, 16, 16, 1). */
  function Vec16(r: Reg): Reg {
    Stride(r, 16, 16, 1)
  }

  /** offset(r, delta): delta registers further on. */
  function Offset(r: Reg, delta: int): Reg {
    r.(nr := r.nr + delta)
  }

  /** suboffset(r, delta): delta elements further on within the register. */
  function Suboffset(r: Reg, delta: nat): Reg {
    r.(sub := r.sub + delta)
  }

  /** One instruction appended by an emitter primitive.
   *  Txf is emit_texture_lookup with the texel-fetch opcode; RtWrite is
   *  emit_render_target_write; msgBase and msgLen are the message register
   *  number and the message length in registers. */
  datatype Instr =
    | Add(dst: Reg, src0: Reg, src1: Reg)
    | Mov(dst: Reg, src: Reg)
    | Txf(dst: Reg, msgBase: int, msgLen: int)
    | RtWrite(src: Reg, msgBase: int, msgLen: int, useHeader: bool)

  /** The operands an instruction reads. */
  function Sources(ins: Instr): seq<Reg> {
    match ins
    case Add(_, s0, s1) => [s0, s1]
    case Mov(_, s) => [s]
    case Txf(_, _, _) => []
    case RtWrite(s, _, _, _) => [s]
  }

  /** Does some instruction of the log read the poison immediate, however retyped? */
  predicate ReadsPoison(log: seq<Instr>) {
    exists i, k :: 0 <= i < |log| && 0 <= k < |Sources(log[i])| && IsPoison(Sources(log[i])[k])
  }
}
