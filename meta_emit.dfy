/** Emission sequencer and dispatcher of the meta compiler: the instruction
 *  sequence each routine appends, which routine each shader id runs, and
 *  what those sequences read.
 */
module MetaEmit {
  import opened BrwReg
  import opened MetaLayout

  /** First message register of the render-target-write payload. */
  const BASE_MRF := 2

  /** r0, the first payload register; no routine reads it. */
  const R0: Reg := Retype(Vec8Grf(0, 0), UW)

  /** r1, the payload register holding the pixel coordinates of the subspans. */
  const R1: Reg := Retype(Vec8Grf(1, 0), UW)

  /** The message payload register: base_mrf, sixteen 32-bit elements. */
  const MRF: Reg := Retype(Vec16(MessageReg(BASE_MRF)), UD)

  /** The subspan X and Y origins in r1: elements 4 and 5, read with region
   *  <2; 4, 0>. */
  const SUBSPAN_X: Reg := Stride(Suboffset(R1, 4), 2, 4, 0)
  const SUBSPAN_Y: Reg := Stride(Suboffset(R1, 5), 2, 4, 0)

  /** Packed-vector immediates that spread the subspan X and Y origins over
   *  the sixteen pixels; opaque bit patterns of the hardware payload layout. */
  const FRAG_X_PATTERN := 0x10101010
  const FRAG_Y_PATTERN := 0x11001100

  /** The three emission routines. */
  datatype Routine = EmitCopyMem | EmitClearColor | EmitClearDepth

  /** The routine compile runs for id: COPY_MEM copies, CLEAR_DEPTH writes
   *  depth, and every other id, unknown ones included, takes the clear-color
   *  path. */
  function Dispatch(id: MetaShaderId): (r: Routine)
    ensures r == EmitCopyMem <==> id.CopyMem?
    ensures r == EmitClearDepth <==> id.ClearDepth?
    ensures r == EmitClearColor <==> !id.CopyMem? && !id.ClearDepth?
  {
    match id
    case CopyMem => EmitCopyMem
    case CopyImg(_) => EmitClearColor
    case CopyImgToMem(_) => EmitClearColor
    case CopyMemToImg => EmitClearColor
    case ClearColor => EmitClearColor
    case ClearDepth => EmitClearDepth
    case Resolve(_) => EmitClearColor
    case OtherId(_) => EmitClearColor
  }

  /** Message register base_mrf + k. */
  function MsgSlot(k: int): Reg {
    Offset(MRF, k)
  }

  /** emit_compute_frag_coord: frag_x and frag_y from the subspan origins in r1. */
  function FragCoordTrace(fragX: Reg, fragY: Reg): seq<Instr> {
    [Add(Vec16(Retype(fragX, UW)), SUBSPAN_X, ImmV(FRAG_X_PATTERN)),
     Add(Vec16(Retype(fragY, UW)), SUBSPAN_Y, ImmV(FRAG_Y_PATTERN))]
  }

  /** Concatenation regroups freely. */
  lemma AppendAssoc<T>(a: seq<T>, b: seq<T>, c: seq<T>)
    ensures a + (b + c) == (a + b) + c
  {
  }

  /** A prefix one longer is the prefix and the next element. */
  lemma PrefixStep<T>(s: seq<T>, k: nat)
    requires k < |s|
    ensures s[..k + 1] == s[..k] + [s[k]]
  {
  }

  /** emit_clear_color: clear_vals[k] into message slot 2 * k, then an
   *  8-register render-target write. */
  function ClearColorTrace(clearVals: seq<Reg>): seq<Instr>
    requires |clearVals| == 4
  {
    [Mov(MsgSlot(0), clearVals[0]), Mov(MsgSlot(2), clearVals[1]),
     Mov(MsgSlot(4), clearVals[2]), Mov(MsgSlot(6), clearVals[3]),
     RtWrite(MRF, BASE_MRF, 8, false)]
  }

  /** emit_clear_depth: the four colour slots are skipped. */
  function ClearDepthTrace(depth: Reg): seq<Instr> {
    [Mov(MsgSlot(8), depth), RtWrite(MRF, BASE_MRF, 10, false)]
  }

  /** emit_copy_mem: the frag-coord adds, frag_x + src_offset_x into message
   *  slot 0, the texel fetch, the four channels of texels[0] into slots 0, 2,
   *  4 and 6, and an 8-register render-target write. */
  function CopyMemTrace(ops: Operands): seq<Instr>
    requires ops.WellFormed()
  {
    var texel := ops.texels[0];
    [Add(Vec16(Retype(ops.fragX, UW)), SUBSPAN_X, ImmV(FRAG_X_PATTERN)),
     Add(Vec16(Retype(ops.fragY, UW)), SUBSPAN_Y, ImmV(FRAG_Y_PATTERN)),
     Add(MsgSlot(0), Retype(ops.fragX, UW), Retype(ops.srcOffsetX, UW)),
     Txf(texel, BASE_MRF, 2),
     Mov(MsgSlot(0), Offset(texel, 0)), Mov(MsgSlot(2), Offset(texel, 2)),
     Mov(MsgSlot(4), Offset(texel, 4)), Mov(MsgSlot(6), Offset(texel, 6)),
     RtWrite(MRF, BASE_MRF, 8, false)]
  }

  /** What compile appends for id once the operands are planned.  Every
   *  program ends with its one render-target write. */
  function Emission(id: MetaShaderId, ops: Operands): (r: seq<Instr>)
    requires ops.WellFormed()
    ensures 0 < |r| && r[|r| - 1].RtWrite?
    ensures forall i :: 0 <= i < |r| - 1 ==> !r[i].RtWrite?
  {
    match Dispatch(id)
    case EmitCopyMem => CopyMemTrace(ops)
    case EmitClearColor => ClearColorTrace(ops.clearVals)
    case EmitClearDepth => ClearDepthTrace(ops.clearVals[0])
  }

  /** Bytes of one element of each type. */
  function TypeBytes(ty: RegType): nat {
    match ty
    case UD => 4
    case UW => 2
    case F => 4
    case V => 4
  }

  /** Registers (32 bytes each) an operand covers: its row of elements at
   *  their size, rounded up. */
  function RegsSpanned(r: Reg): nat {
    (r.region.width * TypeBytes(r.ty) + 31) / 32
  }

  /** Does ins write a message register? */
  predicate WritesMessage(ins: Instr) {
    (ins.Add? || ins.Mov?) && ins.dst.file == MrfFile
  }

  /** The writes fill message [base, base + len) back to back, in order: the
   *  first starts at base, each starts where the previous one ends, the last
   *  ends at base + len. */
  predicate TilesMessage(writes: seq<Instr>, base: int, len: int) {
    && 0 < |writes|
    && (forall i :: 0 <= i < |writes| ==> WritesMessage(writes[i]))
    && writes[0].dst.nr == base
    && (forall i :: 0 <= i < |writes| - 1 ==>
          writes[i].dst.nr + RegsSpanned(writes[i].dst) == writes[i + 1].dst.nr)
    && writes[|writes| - 1].dst.nr + RegsSpanned(writes[|writes| - 1].dst) == base + len
  }

  /** Writes that tile a message never overlap: each ends at or before the
   *  start of every later one. */
  lemma {:induction false} TiledWritesDisjoint(writes: seq<Instr>, base: int, len: int, i: nat, j: nat)
    requires TilesMessage(writes, base, len)
    requires i < j < |writes|
    ensures writes[i].dst.nr + RegsSpanned(writes[i].dst) <= writes[j].dst.nr
    decreases j - i
  {
    if j > i + 1 {
      TiledWritesDisjoint(writes, base, len, i, j - 1);
    }
  }

  /** Every write of a tiling lies inside the message. */
  lemma TiledWritesInside(writes: seq<Instr>, base: int, len: int, k: nat)
    requires TilesMessage(writes, base, len)
    requires k < |writes|
    ensures base <= writes[k].dst.nr
    ensures writes[k].dst.nr + RegsSpanned(writes[k].dst) <= base + len
  {
    if 0 < k {
      TiledWritesDisjoint(writes, base, len, 0, k);
    }
    if k < |writes| - 1 {
      TiledWritesDisjoint(writes, base, len, k, |writes| - 1);
    }
  }

  /** A tiling's writes, taken together: pairwise apart, and all inside the message. */
  lemma TiledWritesSeparate(writes: seq<Instr>, base: int, len: int)
    requires TilesMessage(writes, base, len)
    ensures forall i, j :: 0 <= i < j < |writes| ==>
      writes[i].dst.nr + RegsSpanned(writes[i].dst) <= writes[j].dst.nr
    ensures forall k :: 0 <= k < |writes| ==>
      base <= writes[k].dst.nr && writes[k].dst.nr + RegsSpanned(writes[k].dst) <= base + len
  {
    forall i, j | 0 <= i < j < |writes|
      ensures writes[i].dst.nr + RegsSpanned(writes[i].dst) <= writes[j].dst.nr
    {
      TiledWritesDisjoint(writes, base, len, i, j);
    }
    forall k | 0 <= k < |writes|
      ensures base <= writes[k].dst.nr && writes[k].dst.nr + RegsSpanned(writes[k].dst) <= base + len
    {
      TiledWritesInside(writes, base, len, k);
    }
  }

  /** emit_clear_color: the four clear values, channel by channel in order,
   *  fill the whole message that the render-target write sends from
   *  base_mrf; no texel is fetched. */
  lemma ClearColorMessage(clearVals: seq<Reg>)
    requires |clearVals| == 4
    ensures |ClearColorTrace(clearVals)| == 5
    ensures var t := ClearColorTrace(clearVals);
      t[4].RtWrite? && t[4].src.file == MrfFile && t[4].src.nr == t[4].msgBase == BASE_MRF
      && TilesMessage(t[..4], t[4].msgBase, t[4].msgLen)
    ensures forall i :: 0 <= i < 4 ==>
      ClearColorTrace(clearVals)[i].Mov? && ClearColorTrace(clearVals)[i].src == clearVals[i]
    ensures forall i :: 0 <= i < 5 ==> !ClearColorTrace(clearVals)[i].Txf?
  {
    var t := ClearColorTrace(clearVals);
    assert t[..4] == [Mov(MsgSlot(0), clearVals[0]), Mov(MsgSlot(2), clearVals[1]),
                      Mov(MsgSlot(4), clearVals[2]), Mov(MsgSlot(6), clearVals[3])];
    ColourSlotMovesTile(clearVals[0], clearVals[1], clearVals[2], clearVals[3]);
  }

  /** emit_clear_depth: the depth value lands past the four colour slots and
   *  ends the message the render-target write sends. */
  lemma ClearDepthMessage(depth: Reg)
    ensures |ClearDepthTrace(depth)| == 2
    ensures var t := ClearDepthTrace(depth);
      t[1].RtWrite? && t[1].src.file == MrfFile && t[1].src.nr == t[1].msgBase == BASE_MRF
      && t[0].Mov? && t[0].src == depth && WritesMessage(t[0])
      && t[0].dst.nr == t[1].msgBase + 4 * RegsSpanned(MRF)
      && t[0].dst.nr + RegsSpanned(t[0].dst) == t[1].msgBase + t[1].msgLen
  {
  }

  /** emit_copy_mem, first half: after computing the fragment coordinate,
   *  the offset coordinate fills the two-register message of the texel
   *  fetch, which writes texels[0]; that fetch is the program's only one. */
  lemma CopyMemFetch(ops: Operands)
    requires ops.WellFormed()
    ensures |CopyMemTrace(ops)| == 9
    ensures var t := CopyMemTrace(ops);
      t[0].Add? && t[0].dst.nr == ops.fragX.nr && t[1].Add? && t[1].dst.nr == ops.fragY.nr
      && t[2].Add? && t[2].src0.nr == ops.fragX.nr && t[2].src1.nr == ops.srcOffsetX.nr
      && t[3].Txf? && t[3].dst == ops.texels[0] && t[3].msgBase == BASE_MRF
      && TilesMessage(t[2..3], t[3].msgBase, t[3].msgLen)
    ensures forall i :: 0 <= i < 9 && i != 3 ==> !CopyMemTrace(ops)[i].Txf?
  {
  }

  /** emit_copy_mem, second half: after the fetch, the four channels of
   *  texels[0] fill the render-target message from base_mrf in layout
   *  order, each moved to the same distance into the message as it lies in
   *  the texel. */
  lemma CopyMemChannels(ops: Operands)
    requires ops.WellFormed()
    ensures |CopyMemTrace(ops)| == 9
    ensures var t := CopyMemTrace(ops);
      t[8].RtWrite? && t[8].src.file == MrfFile && t[8].src.nr == t[8].msgBase == BASE_MRF
      && TilesMessage(t[4..8], t[8].msgBase, t[8].msgLen)
    ensures forall i :: 4 <= i < 8 ==>
      CopyMemTrace(ops)[i].Mov?
      && CopyMemTrace(ops)[i].src.file == ops.texels[0].file
      && CopyMemTrace(ops)[i].src.nr - ops.texels[0].nr == CopyMemTrace(ops)[i].dst.nr - BASE_MRF
  {
    var t := CopyMemTrace(ops);
    var x := ops.texels[0];
    assert t[4..8] == [Mov(MsgSlot(0), Offset(x, 0)), Mov(MsgSlot(2), Offset(x, 2)),
                       Mov(MsgSlot(4), Offset(x, 4)), Mov(MsgSlot(6), Offset(x, 6))];
    ColourSlotMovesTile(Offset(x, 0), Offset(x, 2), Offset(x, 4), Offset(x, 6));
  }

  /** Helper: moves into message offsets 0, 2, 4 and 6 fill the 8-register
   *  message from base_mrf. */
  lemma ColourSlotMovesTile(a: Reg, b: Reg, c: Reg, d: Reg)
    ensures TilesMessage([Mov(MsgSlot(0), a), Mov(MsgSlot(2), b), Mov(MsgSlot(4), c), Mov(MsgSlot(6), d)],
                         BASE_MRF, 8)
  {
  }

  /** Is r a register, or one of the two frag-coord patterns, and so no
   *  unbound operand? */
  predicate RegisterOrPattern(r: Reg) {
    r.file != ImmFile || r == ImmV(FRAG_X_PATTERN) || r == ImmV(FRAG_Y_PATTERN)
  }

  /** Once frag_x, src_offset_x and texels[0] are registers, everything
   *  emit_copy_mem reads is a register or a frag-coord pattern. */
  lemma CopyMemReadsRegisters(ops: Operands)
    requires ops.WellFormed()
    requires ops.fragX.file != ImmFile && ops.srcOffsetX.file != ImmFile && ops.texels[0].file != ImmFile
    ensures forall i, k :: 0 <= i < |CopyMemTrace(ops)| && 0 <= k < |Sources(CopyMemTrace(ops)[i])| ==>
      RegisterOrPattern(Sources(CopyMemTrace(ops)[i])[k])
  {
    var t := CopyMemTrace(ops);
    forall i, k | 0 <= i < |t| && 0 <= k < |Sources(t[i])| ensures RegisterOrPattern(Sources(t[i])[k]) {
    }
  }

  /** emit_copy_mem reads src_offset_x retyped to words: were it left
   *  unbound, the program would read poison. */
  lemma UnboundOffsetIsRead(ops: Operands)
    requires ops.WellFormed() && IsPoison(ops.srcOffsetX)
    ensures ReadsPoison(CopyMemTrace(ops))
  {
    assert IsPoison(Sources(CopyMemTrace(ops)[2])[1]);
  }

  /** The planner binds every operand COPY_MEM reads: its program reads only
   *  registers and the two frag-coord patterns, and so never poison. */
  lemma CopyMemReadsBound()
    ensures Layout(CopyMem).srcOffsetX.IsGrf() && Layout(CopyMem).fragX.IsGrf()
      && Layout(CopyMem).texels[0].IsGrf()
    ensures forall i, k ::
      (0 <= i < |Emission(CopyMem, Layout(CopyMem))| && 0 <= k < |Sources(Emission(CopyMem, Layout(CopyMem))[i])|)
      ==> RegisterOrPattern(Sources(Emission(CopyMem, Layout(CopyMem))[i])[k])
    ensures !ReadsPoison(Emission(CopyMem, Layout(CopyMem)))
  {
    var ops := Layout(CopyMem);
    SampledCopyLayout(CopyMem);
    assert ops.srcOffsetX == ops.PushConstants()[4];
    CopyMemReadsRegisters(ops);
  }

  /** A program reads the poison immediate exactly when its id is neither a
   *  clear nor COPY_MEM: every other id runs emit_clear_color with its clear
   *  values unbound, and nothing stops it. */
  lemma PoisonReadIff(id: MetaShaderId)
    ensures ReadsPoison(Emission(id, Layout(id))) <==> !id.IsClear() && !id.CopyMem?
  {
    var t := Emission(id, Layout(id));
    if id.CopyMem? {
      CopyMemReadsBound();
    } else if id.IsClear() {
      ClearLayout(id);
      ClearColorMessage(Layout(id).clearVals);
      forall i, k | 0 <= i < |t| && 0 <= k < |Sources(t[i])| ensures !IsPoison(Sources(t[i])[k]) {
      }
    } else {
      PlaceholderMovesPoison(id);
      assert IsPoison(Sources(t[0])[0]);
    }
  }

  /** On the placeholder path (every id but the clears and COPY_MEM) the four
   *  moves of emit_clear_color all read the poison immediate. */
  lemma PlaceholderMovesPoison(id: MetaShaderId)
    requires !id.IsClear() && !id.CopyMem?
    ensures Dispatch(id) == EmitClearColor
    ensures |Emission(id, Layout(id))| == 5
    ensures forall i :: 0 <= i < 4 ==> Emission(id, Layout(id))[i] == Mov(MsgSlot(2 * i), POISON)
  {
    if id.IsSampledCopy() { SampledCopyLayout(id); }
    else if id.IsCopyToMem() { CopyToMemLayout(id); }
    else if id.CopyMemToImg? { MemToImgLayout(id); }
    else { OffsetsOnlyLayout(id); }
    var cv := Layout(id).clearVals;
    assert cv == Layout(id).PushConstants()[..4];
    assert cv == [POISON, POISON, POISON, POISON];
    assert Emission(id, Layout(id)) == ClearColorTrace(cv);
  }
}
