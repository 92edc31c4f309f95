/*
 * The rules of PipelineManager::CreatePipeline that turn one polygon's
 * PowerVR state into Vulkan fixed-function state and a fragment-shader
 * variant: blend-factor translation, culling, depth compare and write,
 * stencil, colour blending, and the fragment shader parameters.
 */
module PipelineRules {
  import opened PvrHardware
  import opened VkState

  datatype Option<T> = None | Some(value: T)

  /** The fatal configuration errors of the translator. */
  datatype BuildError = UnsupportedBlendInstruction(instr: U32)

  datatype Result<T> = Ok(value: T) | Err(error: BuildError)

  // ---------------------------------------------------------------------
  // Blend-factor translation

  /** The hardware's meaning of a blend instruction in one slot (`src` for
      the source slot). Instructions 2 and 3 weigh by the colour of the
      OTHER operand: the destination's in the source slot and vice versa. */
  function HardwareWeight(instr: U3, src: bool): Weight
  {
    var other := if src then Destination else Source;
    if instr == 0 then ZeroWeight
    else if instr == 1 then OneWeight
    else if instr == 2 then ColourOf(other)
    else if instr == 3 then InverseColourOf(other)
    else if instr == 4 then AlphaOf(Source)
    else if instr == 5 then InverseAlphaOf(Source)
    else if instr == 6 then AlphaOf(Destination)
    else InverseAlphaOf(Destination)
  }

  /** `getBlendFactor`: defined for the eight 3-bit instructions; any other
      value is the fatal "unsupported blend instruction" error. */
  function BlendFactorFor(instr: U32, src: bool): (r: Result<BlendFactor>)
    ensures r.Ok? <==> instr < 8
    ensures r.Ok? ==> WeightOf(r.value) == HardwareWeight(instr, src)
    ensures r.Err? ==> r.error == UnsupportedBlendInstruction(instr)
  {
    match instr
    case 0 => Ok(Zero)
    case 1 => Ok(One)
    case 2 => Ok(if src then DstColor else SrcColor)
    case 3 => Ok(if src then OneMinusDstColor else OneMinusSrcColor)
    case 4 => Ok(SrcAlpha)
    case 5 => Ok(OneMinusSrcAlpha)
    case 6 => Ok(DstAlpha)
    case 7 => Ok(OneMinusDstAlpha)
    case _ => Err(UnsupportedBlendInstruction(instr))
  }

  /** The instruction that yields factor `f` in the given slot, if any. */
  function InstrFor(f: BlendFactor, src: bool): Option<U3>
  {
    match f
    case Zero => Some(0)
    case One => Some(1)
    case DstColor => if src then Some(2) else None
    case SrcColor => if src then None else Some(2)
    case OneMinusDstColor => if src then Some(3) else None
    case OneMinusSrcColor => if src then None else Some(3)
    case SrcAlpha => Some(4)
    case OneMinusSrcAlpha => Some(5)
    case DstAlpha => Some(6)
    case OneMinusDstAlpha => Some(7)
  }

  /** Translation and InstrFor are inverse: every valid instruction is
      recovered from its factor, and every factor InstrFor accepts is the
      translation of the instruction it names. */
  lemma BlendFactorRoundTrip(instr: U3, f: BlendFactor, src: bool)
    ensures InstrFor(BlendFactorFor(instr, src).value, src) == Some(instr)
    ensures InstrFor(f, src) == Some(instr) <==> BlendFactorFor(instr, src) == Ok(f)
  {
  }

  /** No slot ever weighs by its own colour: colour factors in the source
      slot read the destination, in the destination slot the source. */
  lemma BlendColourIsOtherOperand(instr: U3, src: bool)
    ensures WeightOf(BlendFactorFor(instr, src).value) != ColourOf(if src then Source else Destination)
    ensures WeightOf(BlendFactorFor(instr, src).value) != InverseColourOf(if src then Source else Destination)
  {
  }

  // ---------------------------------------------------------------------
  // Culling

  /** Cull mode 3 culls back faces, 2 front faces, 0 and 1 nothing. */
  function CullModeFor(cullMode: U2): (r: CullMode)
    ensures r == CullBack <==> cullMode == 3
    ensures r == CullFront <==> cullMode == 2
    ensures r == CullNone <==> cullMode < 2
    ensures forall facing :: Culls(r, facing) <==>
      (cullMode == 2 && facing == FrontFacing) || (cullMode == 3 && facing == BackFacing)
  {
    if cullMode == 3 then CullBack
    else if cullMode == 2 then CullFront
    else CullNone
  }

  // ---------------------------------------------------------------------
  // Depth test and depth write

  /** The `depthOps` table, indexed by the ISP depth compare mode. */
  const DepthOps: seq<CompareOp> :=
    [Never, Less, Equal, LessOrEqual, Greater, NotEqual, GreaterOrEqual, Always]

  /** The hardware depth mode read as three accept bits: bit 0 lets
      nearer-by-compare ("less") fragments through, bit 1 equal ones,
      bit 2 "greater" ones. */
  predicate DepthModeAccepts(mode: U3, reference: int, stored: int)
  {
    || (mode % 2 == 1 && reference < stored)
    || (mode / 2 % 2 == 1 && reference == stored)
    || (mode / 4 == 1 && reference > stored)
  }

  /** Every entry of `depthOps` is the Vulkan op with exactly the accept
      bits of its index. */
  lemma DepthOpsDecode(mode: U3)
    ensures forall reference, stored ::
      Passes(DepthOps[mode], reference, stored) <==> DepthModeAccepts(mode, reference, stored)
  {
  }

  /** Punch-through polygons, and translucent ones when triangles are
      sorted, ignore the polygon's depth mode. */
  predicate ForcesGreaterOrEqual(listType: ListType, sortTriangles: bool)
  {
    listType == PunchThrough || (listType == Translucent && sortTriangles)
  }

  /** The depth compare op: GreaterOrEqual (the table's mode 6) for the
      forced lists, otherwise the op for the polygon's own depth mode. */
  function DepthCompareOp(listType: ListType, sortTriangles: bool, depthMode: U3): (r: CompareOp)
    ensures ForcesGreaterOrEqual(listType, sortTriangles) ==> r == GreaterOrEqual
    ensures forall reference, stored :: Passes(r, reference, stored) <==>
      DepthModeAccepts(if ForcesGreaterOrEqual(listType, sortTriangles) then 6 else depthMode, reference, stored)
  {
    if ForcesGreaterOrEqual(listType, sortTriangles) then
      DepthOpsDecode(6);
      GreaterOrEqual
    else
      DepthOpsDecode(depthMode);
      DepthOps[depthMode]
  }

  /** Depth write: never for list-level sorted triangles; otherwise always
      for punch-through (whose Z write disable bit is ignored) and as the
      Z write disable bit says for every other list. */
  function DepthWriteEnabled(listType: ListType, sortTriangles: bool, perStripSorting: bool, zWriteDis: bool): (r: bool)
    ensures r <==> !(sortTriangles && !perStripSorting) && (listType == PunchThrough || !zWriteDis)
  {
    if sortTriangles && !perStripSorting then false
    else if listType == PunchThrough then true
    else !zWriteDis
  }

  // ---------------------------------------------------------------------
  // Stencil

  /** `stencilOpStateSet`: Keep, Keep, Keep, Always, compare mask 0,
      write mask 0x80, reference 0x80. */
  const StencilSet := StencilOpState(Keep, Keep, Keep, Always, 0, 0x80, 0x80)

  /** `stencilOpStateNop`: Keep, Keep, Keep, Always, all masks zero. */
  const StencilNop := StencilOpState(Keep, Keep, Keep, Always, 0, 0, 0)

  /** The depth/stencil block of the pipeline. */
  function DepthStencilFor(listType: ListType, sortTriangles: bool, perStripSorting: bool, isp: Isp, shadow: bool)
    : (r: DepthStencilState)
    ensures r.depthTestEnable && !r.depthBoundsTestEnable
    ensures r.depthCompareOp == DepthCompareOp(listType, sortTriangles, isp.depthMode)
    ensures r.depthWriteEnable == DepthWriteEnabled(listType, sortTriangles, perStripSorting, isp.zWriteDis)
    ensures r.stencilTestEnable <==> listType == Opaque || listType == PunchThrough
    ensures r.front == StencilSet <==> shadow
    ensures !shadow ==> r.front == StencilNop
    ensures r.back == StencilNop
  {
    DepthStencilState(
      true,
      DepthWriteEnabled(listType, sortTriangles, perStripSorting, isp.zWriteDis),
      DepthCompareOp(listType, sortTriangles, isp.depthMode),
      false,
      listType == Opaque || listType == PunchThrough,
      if shadow then StencilSet else StencilNop,
      StencilNop)
  }

  // ---------------------------------------------------------------------
  // Colour blending

  predicate Blends(listType: ListType)
  {
    listType == Translucent || listType == PunchThrough
  }

  /** The colour-blend attachment: translucent and punch-through polygons
      blend with their TSP instructions, alpha weighted like colour; other
      lists do not blend. Both ops add and all four channels are written. */
  function ColorBlendFor(listType: ListType, tsp: Tsp): (r: ColorBlendAttachment)
    ensures r.blendEnable <==> Blends(listType)
    ensures r.srcAlphaBlendFactor == r.srcColorBlendFactor
    ensures r.dstAlphaBlendFactor == r.dstColorBlendFactor
    ensures r.blendEnable ==> BlendFactorFor(tsp.srcInstr, true) == Ok(r.srcColorBlendFactor)
    ensures r.blendEnable ==> BlendFactorFor(tsp.dstInstr, false) == Ok(r.dstColorBlendFactor)
    ensures !r.blendEnable ==> r.srcColorBlendFactor == Zero && r.dstColorBlendFactor == Zero
    ensures r.colorBlendOp == Add && r.alphaBlendOp == Add
    ensures r.colorWriteMask == RGBA
  {
    if Blends(listType) then
      var src := BlendFactorFor(tsp.srcInstr, true).value;
      var dst := BlendFactorFor(tsp.dstInstr, false).value;
      ColorBlendAttachment(true, src, dst, Add, src, dst, Add, RGBA)
    else
      ColorBlendAttachment(false, Zero, Zero, Add, Zero, Zero, Add, RGBA)
  }

  // ---------------------------------------------------------------------
  // Fragment shader parameters

  /** The shader manager's fragment-shader key. */
  datatype FragmentShaderParams = FragmentShaderParams(
    alphaTest: bool,
    bumpmap: bool,
    clamping: bool,
    clipTest: int,
    fog: nat,
    gouraud: bool,
    ignoreTexAlpha: bool,
    offset: bool,
    shaderInstr: U2,
    texture: bool,
    trilinear: bool,
    useAlpha: bool)

  /** The shader manager's vertex-shader key. */
  datatype VertexShaderParams = VertexShaderParams(gouraud: bool, rotate90: bool)

  /** What the shader does with `clipTest` for a fragment inside or outside
      the tile-clip rectangle: positive keeps inside, negative keeps outside,
      zero keeps everything. */
  predicate ClipPasses(clipTest: int, inside: bool)
  {
    clipTest == 0 || (clipTest > 0 && inside) || (clipTest < 0 && !inside)
  }

  /** The clip test from the top four bits of `tileclip`: mode 2 renders
      inside the region only, mode 3 outside only, any other mode all. */
  function ClipTestFor(tileclip: U32): (r: int)
    ensures r == 1 <==> TileClipMode(tileclip) == 2
    ensures r == -1 <==> TileClipMode(tileclip) == 3
    ensures r == 0 <==> TileClipMode(tileclip) != 2 && TileClipMode(tileclip) != 3
    ensures forall inside :: ClipPasses(r, inside) <==>
      (TileClipMode(tileclip) == 2 ==> inside) && (TileClipMode(tileclip) == 3 ==> !inside)
  {
    match TileClipMode(tileclip)
    case 2 => 1
    case 3 => -1
    case _ => 0
  }

  /** The fog clamp range is trivial when it spans every colour. */
  predicate FullFogClampRange(globals: Globals)
  {
    globals.fogClampMin == 0 && globals.fogClampMax == 0xffff_ffff
  }

  /** The fragment-shader variant of a polygon. */
  function FragmentParamsFor(listType: ListType, pp: PolyParam, globals: Globals): (r: FragmentShaderParams)
    ensures r.alphaTest <==> listType == PunchThrough
    ensures r.trilinear <==> pp.pcw.texture && pp.tsp.filterMode > 1 && !r.alphaTest
    ensures r.clamping <==> pp.tsp.colorClamp && !FullFogClampRange(globals)
    ensures r.bumpmap <==> pp.tcw.pixelFmt == PixelBumpMap
    ensures r.clipTest == ClipTestFor(pp.tileclip)
    ensures forall inside :: ClipPasses(r.clipTest, inside) <==>
      (TileClipMode(pp.tileclip) == 2 ==> inside) && (TileClipMode(pp.tileclip) == 3 ==> !inside)
    ensures r.fog == 2
    ensures r.gouraud == pp.pcw.gouraud && r.offset == pp.pcw.offset && r.texture == pp.pcw.texture
    ensures r.shaderInstr == pp.tsp.shadInstr
    ensures r.ignoreTexAlpha == pp.tsp.ignoreTexA && r.useAlpha == pp.tsp.useAlpha
  {
    FragmentShaderParams(
      alphaTest := listType == PunchThrough,
      bumpmap := pp.tcw.pixelFmt == PixelBumpMap,
      clamping := pp.tsp.colorClamp && (globals.fogClampMin != 0 || globals.fogClampMax != 0xffff_ffff),
      clipTest := ClipTestFor(pp.tileclip),
      fog := 2,
      gouraud := pp.pcw.gouraud,
      ignoreTexAlpha := pp.tsp.ignoreTexA,
      offset := pp.pcw.offset,
      shaderInstr := pp.tsp.shadInstr,
      texture := pp.pcw.texture,
      trilinear := pp.pcw.texture && pp.tsp.filterMode > 1 && listType != PunchThrough,
      useAlpha := pp.tsp.useAlpha)
  }
}
