/*
 * The parts of the Vulkan graphics-pipeline state that the translator fills
 * in, with just enough of Vulkan's meaning for each value to state what a
 * translation means: which fragments a compare op lets through, which faces
 * a cull mode drops, and what each blend factor weighs a colour by.
 */
module VkState {

  datatype CompareOp =
    | Never | Less | Equal | LessOrEqual | Greater | NotEqual | GreaterOrEqual | Always

  /** Vulkan's comparison `reference op stored`; for the depth test the
      reference is the fragment's depth and `stored` the depth buffer's. */
  predicate Passes(op: CompareOp, reference: int, stored: int)
  {
    match op
    case Never => false
    case Less => reference < stored
    case Equal => reference == stored
    case LessOrEqual => reference <= stored
    case Greater => reference > stored
    case NotEqual => reference != stored
    case GreaterOrEqual => reference >= stored
    case Always => true
  }

  datatype CullMode = CullNone | CullFront | CullBack

  datatype FrontFace = CounterClockwise | Clockwise

  datatype Facing = FrontFacing | BackFacing

  /** Whether a primitive facing this way is discarded by the cull mode. */
  predicate Culls(mode: CullMode, facing: Facing)
  {
    match mode
    case CullNone => false
    case CullFront => facing == FrontFacing
    case CullBack => facing == BackFacing
  }

  /** The blend factors the translator can produce. */
  datatype BlendFactor =
    | Zero | One
    | SrcColor | OneMinusSrcColor | DstColor | OneMinusDstColor
    | SrcAlpha | OneMinusSrcAlpha | DstAlpha | OneMinusDstAlpha

  /** The two colours a blend combines: the incoming fragment's and the
      framebuffer's. */
  datatype Operand = Source | Destination

  /** What a blend factor multiplies its colour by. */
  datatype Weight =
    | ZeroWeight
    | OneWeight
    | ColourOf(colour: Operand)
    | InverseColourOf(colour: Operand)
    | AlphaOf(alpha: Operand)
    | InverseAlphaOf(alpha: Operand)

  /** Vulkan's definition of each blend factor. */
  function WeightOf(f: BlendFactor): Weight
  {
    match f
    case Zero => ZeroWeight
    case One => OneWeight
    case SrcColor => ColourOf(Source)
    case OneMinusSrcColor => InverseColourOf(Source)
    case DstColor => ColourOf(Destination)
    case OneMinusDstColor => InverseColourOf(Destination)
    case SrcAlpha => AlphaOf(Source)
    case OneMinusSrcAlpha => InverseAlphaOf(Source)
    case DstAlpha => AlphaOf(Destination)
    case OneMinusDstAlpha => InverseAlphaOf(Destination)
  }

  datatype BlendOp = Add

  datatype ColorComponents = ColorComponents(r: bool, g: bool, b: bool, a: bool)

  const RGBA := ColorComponents(true, true, true, true)

  datatype StencilOp = Keep

  /** `VkStencilOpState`, fields in Vulkan's order. */
  datatype StencilOpState = StencilOpState(
    failOp: StencilOp,
    passOp: StencilOp,
    depthFailOp: StencilOp,
    compareOp: CompareOp,
    compareMask: nat,
    writeMask: nat,
    reference: nat)

  datatype DepthStencilState = DepthStencilState(
    depthTestEnable: bool,
    depthWriteEnable: bool,
    depthCompareOp: CompareOp,
    depthBoundsTestEnable: bool,
    stencilTestEnable: bool,
    front: StencilOpState,
    back: StencilOpState)

  datatype ColorBlendAttachment = ColorBlendAttachment(
    blendEnable: bool,
    srcColorBlendFactor: BlendFactor,
    dstColorBlendFactor: BlendFactor,
    colorBlendOp: BlendOp,
    srcAlphaBlendFactor: BlendFactor,
    dstAlphaBlendFactor: BlendFactor,
    alphaBlendOp: BlendOp,
    colorWriteMask: ColorComponents)

  datatype Rasterization = Rasterization(cullMode: CullMode, frontFace: FrontFace)
}
