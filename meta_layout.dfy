/** Register layout planner of the meta compiler: which register each logical
 *  operand of a meta shader lives in, as a function of the shader id.
 *
 *  The class in MetaCompiler updates these operands in place; this module
 *  holds their value-level snapshot, the reference definition of what
 *  alloc_pcb_regs and alloc_regs bind, and the properties of the result.
 */
module MetaLayout {
  import opened BrwReg

  /** The image kinds of the COPY_<kind> and COPY_<kind>_TO_MEM shaders. */
  datatype ImageKind = Image1D | Image1DArray | Image2D | Image2DArray | Image2DMs

  /** The sample counts of the RESOLVE_<n>X shaders. */
  datatype SampleCount = Samples2 | Samples4 | Samples8 | Samples16

  /** The meta shaders the driver asks for (enum intel_dev_meta_shader).
   *  CopyImg(k) is COPY_<k>, CopyImgToMem(k) is COPY_<k>_TO_MEM, Resolve(n)
   *  is RESOLVE_<n>X, and OtherId stands for every enumerator that none of
   *  the switches names. */
  datatype MetaShaderId =
    | CopyMem
    | CopyImg(kind: ImageKind)
    | CopyImgToMem(kind: ImageKind)
    | CopyMemToImg
    | ClearColor
    | ClearDepth
    | Resolve(samples: SampleCount)
    | OtherId(value: int)
  {
    /** Clears take their push constants as four clear values. */
    predicate IsClear() { ClearColor? || ClearDepth? }

    /** Copies that read a source layer and level of detail and nothing more. */
    predicate IsSampledCopy() { CopyMem? || CopyImg? }

    /** Copies from an image into memory. */
    predicate IsCopyToMem() { CopyImgToMem? }

    predicate IsResolve() { Resolve? }
  }

  /** First general register the planner may use: r0 and r1 hold the thread payload. */
  const BASE_GRF := 2

  /** Registers each planned region spans, in allocation order: the
   *  push-constant row, frag_x, frag_y, texels[0..3], tmp1, tmp2. */
  const SLOT_ROWS: seq<nat> := [1, 2, 2, 8, 8, 8, 8, 2, 2]

  /** The logical operands of one compilation, each the poison immediate or a register. */
  datatype Operands = Operands(
    clearVals: seq<Reg>,
    srcOffsetX: Reg, srcOffsetY: Reg, srcLayer: Reg, srcLod: Reg,
    dstMemOffset: Reg, dstExtentWidth: Reg,
    fragX: Reg, fragY: Reg,
    texels: seq<Reg>,
    tmp1: Reg, tmp2: Reg)
  {
    /** clear_vals and texels are four-element arrays. */
    predicate WellFormed() { |clearVals| == 4 && |texels| == 4 }

    /** The scalar operands that live in the push-constant row. */
    function PushConstants(): seq<Reg> {
      clearVals + [srcOffsetX, srcOffsetY, srcLayer, srcLod, dstMemOffset, dstExtentWidth]
    }

    /** The vector operands, in the order the planner places them. */
    function Vectors(): seq<Reg> {
      [fragX, fragY] + texels + [tmp1, tmp2]
    }
  }

  /** The operands as the compiler's constructor leaves them: everything poison. */
  function Initial(): (ops: Operands)
    ensures ops.WellFormed()
  {
    Operands([POISON, POISON, POISON, POISON],
             POISON, POISON, POISON, POISON, POISON, POISON,
             POISON, POISON, [POISON, POISON, POISON, POISON], POISON, POISON)
  }

  /** No push-constant operand is bound yet. */
  predicate Unbound(ops: Operands) {
    ops.clearVals == [POISON, POISON, POISON, POISON]
    && ops.srcOffsetX == POISON && ops.srcOffsetY == POISON
    && ops.srcLayer == POISON && ops.srcLod == POISON
    && ops.dstMemOffset == POISON && ops.dstExtentWidth == POISON
  }

  /** Element sub of push-constant row grf, read as 32-bit unsigned. */
  function PushConstant(grf: int, sub: nat): Reg {
    Retype(Vec1Grf(grf, sub), UD)
  }

  /** An eight-wide 32-bit operand starting at register grf. */
  function RowVector(grf: int): Reg {
    Retype(Vec8Grf(grf, 0), UD)
  }

  /** A sixteen-wide 32-bit operand starting at register grf. */
  function TexelVector(grf: int): Reg {
    Retype(Vec16(Vec8Grf(grf, 0)), UD)
  }

  /** What alloc_pcb_regs binds in push-constant row grf; every other operand keeps its value. */
  function AllocPcb(ops: Operands, id: MetaShaderId, grf: int): Operands {
    if id.IsClear() then
      ops.(clearVals := [PushConstant(grf, 0), PushConstant(grf, 1),
                         PushConstant(grf, 2), PushConstant(grf, 3)])
    else
      var o := ops.(srcOffsetX := PushConstant(grf, 0), srcOffsetY := PushConstant(grf, 1));
      if id.IsSampledCopy() then
        o.(srcLayer := PushConstant(grf, 2), srcLod := PushConstant(grf, 3))
      else if id.IsCopyToMem() then
        o.(srcLayer := PushConstant(grf, 2), srcLod := PushConstant(grf, 3),
           dstMemOffset := PushConstant(grf, 4), dstExtentWidth := PushConstant(grf, 5))
      else if id.CopyMemToImg? then
        o.(dstExtentWidth := PushConstant(grf, 2))
      else
        o
  }

  /** What alloc_regs binds when it starts at register base. */
  function PlanRegs(ops: Operands, id: MetaShaderId, base: int): Operands {
    AllocPcb(ops, id, base).(
      fragX := RowVector(base + 1),
      fragY := RowVector(base + 3),
      texels := [TexelVector(base + 5), TexelVector(base + 13), TexelVector(base + 21), TexelVector(base + 29)],
      tmp1 := RowVector(base + 37),
      tmp2 := RowVector(base + 39))
  }

  /** The layout a fresh compiler for id ends up with. */
  function Layout(id: MetaShaderId): Operands {
    PlanRegs(Initial(), id, BASE_GRF)
  }

  /** alloc_regs overwrites every vector operand, so the layout does not
   *  depend on what they held before: any unbound start gives Layout(id). */
  lemma PlanFromUnbound(ops: Operands, id: MetaShaderId)
    requires ops.WellFormed() && Unbound(ops)
    ensures PlanRegs(ops, id, BASE_GRF) == Layout(id)
  {
  }

  /** Start register of region k when a running counter begins at base and
   *  advances by the width of each earlier region in turn; k == |widths| is
   *  where the counter ends. */
  function Start(base: int, widths: seq<nat>, k: nat): int
    requires k <= |widths|
  {
    if k == 0 then base else Start(base, widths, k - 1) + widths[k - 1]
  }

  /** Regions laid out by a running counter never overlap: region i ends at
   *  or before the start of every later region j. */
  lemma {:induction false} WalkDisjoint(base: int, widths: seq<nat>, i: nat, j: nat)
    requires i < j <= |widths|
    ensures Start(base, widths, i) + widths[i] <= Start(base, widths, j)
    decreases j
  {
    if j > i + 1 {
      WalkDisjoint(base, widths, i, j - 1);
    }
  }

  /* The push-constant operands (clear_vals[0..3], src_offset_x, src_offset_y,
   * src_layer, src_lod, dst_mem_offset, dst_extent_width) after
   * alloc_pcb_regs in row 2 (base_grf), one row per binding group. */

  /** Clears: clear_vals[0..3] at elements 0..3. */
  const CLEAR_ROW: seq<Reg> :=
    [PushConstant(2, 0), PushConstant(2, 1), PushConstant(2, 2), PushConstant(2, 3),
     POISON, POISON, POISON, POISON, POISON, POISON]
  /** Sampled copies: src_offset_x, src_offset_y, src_layer, src_lod at elements 0..3. */
  const SAMPLED_COPY_ROW: seq<Reg> :=
    [POISON, POISON, POISON, POISON,
     PushConstant(2, 0), PushConstant(2, 1), PushConstant(2, 2), PushConstant(2, 3), POISON, POISON]
  /** Image-to-memory copies: the sampled-copy four, then dst_mem_offset and
   *  dst_extent_width at elements 4 and 5. */
  const COPY_TO_MEM_ROW: seq<Reg> :=
    [POISON, POISON, POISON, POISON,
     PushConstant(2, 0), PushConstant(2, 1), PushConstant(2, 2), PushConstant(2, 3),
     PushConstant(2, 4), PushConstant(2, 5)]
  /** COPY_MEM_TO_IMG: the source offsets at elements 0 and 1, dst_extent_width at 2. */
  const MEM_TO_IMG_ROW: seq<Reg> :=
    [POISON, POISON, POISON, POISON,
     PushConstant(2, 0), PushConstant(2, 1), POISON, POISON, POISON, PushConstant(2, 2)]
  /** Resolves and unknown ids: the source offsets at elements 0 and 1 only. */
  const OFFSETS_ONLY_ROW: seq<Reg> :=
    [POISON, POISON, POISON, POISON,
     PushConstant(2, 0), PushConstant(2, 1), POISON, POISON, POISON, POISON]

  /** The vector operands sit at fixed registers for every id: frag_x at 3,
   *  frag_y at 5, texels[0..3] at 7, 15, 23 and 31, tmp1 at 39, tmp2 at 41. */
  lemma LayoutFixedRegions(id: MetaShaderId)
    ensures Layout(id).WellFormed()
    ensures Layout(id).Vectors() == [RowVector(3), RowVector(5), TexelVector(7), TexelVector(15),
                                     TexelVector(23), TexelVector(31), RowVector(39), RowVector(41)]
  {
  }

  /** CLEAR_COLOR and CLEAR_DEPTH bind the four clear values to elements 0..3
   *  of row base_grf and leave every source and destination operand poison. */
  lemma ClearLayout(id: MetaShaderId)
    requires id.IsClear()
    ensures Layout(id).PushConstants() == CLEAR_ROW
  {
  }

  /** COPY_MEM and the image-to-image copies bind the source offsets, layer
   *  and level of detail to elements 0..3; the clear values stay poison. */
  lemma SampledCopyLayout(id: MetaShaderId)
    requires id.IsSampledCopy()
    ensures Layout(id).PushConstants() == SAMPLED_COPY_ROW
  {
  }

  /** The image-to-memory copies also bind the destination offset and extent
   *  width, to elements 4 and 5. */
  lemma CopyToMemLayout(id: MetaShaderId)
    requires id.IsCopyToMem()
    ensures Layout(id).PushConstants() == COPY_TO_MEM_ROW
  {
  }

  /** COPY_MEM_TO_IMG binds, beyond the source offsets, only the destination
   *  extent width, at element 2. */
  lemma MemToImgLayout(id: MetaShaderId)
    requires id.CopyMemToImg?
    ensures Layout(id).PushConstants() == MEM_TO_IMG_ROW
  {
  }

  /** The resolves and every unknown id bind the source offsets and nothing else. */
  lemma OffsetsOnlyLayout(id: MetaShaderId)
    requires id.IsResolve() || id.OtherId?
    ensures Layout(id).PushConstants() == OFFSETS_ONLY_ROW
  {
  }

  /** The planner's closed-form registers are exactly those of the running
   *  counter that alloc_regs advances from base_grf. */
  lemma LayoutFollowsWalk(id: MetaShaderId)
    ensures Layout(id).WellFormed()
    ensures forall k :: 0 <= k < 8 ==>
      Layout(id).Vectors()[k].IsGrf() && Layout(id).Vectors()[k].nr == Start(BASE_GRF, SLOT_ROWS, k + 1)
    ensures forall k :: 0 <= k < 10 && Layout(id).PushConstants()[k].IsGrf() ==>
      Layout(id).PushConstants()[k].nr == Start(BASE_GRF, SLOT_ROWS, 0)
  {
    SlotStarts();
    LayoutFixedRegions(id);
    PushRowCases(id);
  }

  /** The counter walk of alloc_regs from base_grf, evaluated. */
  lemma SlotStarts()
    ensures Start(BASE_GRF, SLOT_ROWS, 0) == 2
    ensures Start(BASE_GRF, SLOT_ROWS, 1) == 3
    ensures Start(BASE_GRF, SLOT_ROWS, 2) == 5
    ensures Start(BASE_GRF, SLOT_ROWS, 3) == 7
    ensures Start(BASE_GRF, SLOT_ROWS, 4) == 15
    ensures Start(BASE_GRF, SLOT_ROWS, 5) == 23
    ensures Start(BASE_GRF, SLOT_ROWS, 6) == 31
    ensures Start(BASE_GRF, SLOT_ROWS, 7) == 39
    ensures Start(BASE_GRF, SLOT_ROWS, 8) == 41
  {
  }

  /** Helper: the push-constant row of every id, one group at a time. */
  lemma PushRowCases(id: MetaShaderId)
    ensures |Layout(id).PushConstants()| == 10
    ensures forall k :: 0 <= k < 10 ==>
      (Layout(id).PushConstants()[k] == POISON
       || Layout(id).PushConstants()[k] == PushConstant(2, Layout(id).PushConstants()[k].sub))
  {
    if id.IsClear() { ClearLayout(id); }
    else if id.IsSampledCopy() { SampledCopyLayout(id); }
    else if id.IsCopyToMem() { CopyToMemLayout(id); }
    else if id.CopyMemToImg? { MemToImgLayout(id); }
    else { OffsetsOnlyLayout(id); }
  }

  /** No two planned regions overlap, none lies below base_grf (so r0 and r1
   *  are never handed out), and the push-constant row is a region of its own. */
  lemma LayoutRegionsDisjoint(id: MetaShaderId)
    ensures Layout(id).WellFormed()
    ensures forall i, j :: 0 <= i < j < 8 ==>
      Layout(id).Vectors()[i].nr + SLOT_ROWS[i + 1] <= Layout(id).Vectors()[j].nr
    ensures forall k :: 0 <= k < 8 ==>
      Layout(id).Vectors()[k].IsGrf() && BASE_GRF + SLOT_ROWS[0] <= Layout(id).Vectors()[k].nr
    ensures forall k :: 0 <= k < 10 && Layout(id).PushConstants()[k].IsGrf() ==>
      Layout(id).PushConstants()[k].nr == BASE_GRF
  {
    LayoutFollowsWalk(id);
    var v := Layout(id).Vectors();
    forall i, j | 0 <= i < j < 8 ensures v[i].nr + SLOT_ROWS[i + 1] <= v[j].nr {
      WalkDisjoint(BASE_GRF, SLOT_ROWS, i + 1, j + 1);
    }
    forall k | 0 <= k < 8 ensures BASE_GRF + SLOT_ROWS[0] <= v[k].nr {
      WalkDisjoint(BASE_GRF, SLOT_ROWS, 0, k + 1);
    }
  }

  /** Bound operands of a push-constant row take distinct elements, all
   *  inside the row's eight 32-bit elements. */
  predicate SubsDistinct(p: seq<Reg>) {
    (forall i, j :: 0 <= i < j < |p| && p[i].IsGrf() && p[j].IsGrf() ==> p[i].sub != p[j].sub)
    && (forall k :: 0 <= k < |p| && p[k].IsGrf() ==> p[k].sub < 8)
  }

  /** Helper: each of the five binding-group rows keeps its elements apart. */
  lemma GroupRowsDistinct()
    ensures SubsDistinct(CLEAR_ROW)
    ensures SubsDistinct(SAMPLED_COPY_ROW)
    ensures SubsDistinct(COPY_TO_MEM_ROW)
    ensures SubsDistinct(MEM_TO_IMG_ROW)
    ensures SubsDistinct(OFFSETS_ONLY_ROW)
  {
  }

  /** Within the push-constant row, bound operands take distinct elements, all
   *  inside the row's eight 32-bit elements. */
  lemma PushConstantSlotsDistinct(id: MetaShaderId)
    ensures |Layout(id).PushConstants()| == 10
    ensures forall i, j ::
      (0 <= i < j < 10 && Layout(id).PushConstants()[i].IsGrf() && Layout(id).PushConstants()[j].IsGrf()) ==>
      Layout(id).PushConstants()[i].sub != Layout(id).PushConstants()[j].sub
    ensures forall k :: 0 <= k < 10 && Layout(id).PushConstants()[k].IsGrf() ==>
      Layout(id).PushConstants()[k].sub < 8
  {
    GroupRowsDistinct();
    if id.IsClear() { ClearLayout(id); }
    else if id.IsSampledCopy() { SampledCopyLayout(id); }
    else if id.IsCopyToMem() { CopyToMemLayout(id); }
    else if id.CopyMemToImg? { MemToImgLayout(id); }
    else { OffsetsOnlyLayout(id); }
    assert SubsDistinct(Layout(id).PushConstants());
  }
}
