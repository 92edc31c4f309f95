/*
 * The decoded PowerVR polygon state that the Vulkan pipeline translator
 * reads. The hardware packs these fields into the ISP/TSP instruction words,
 * the parameter control word (PCW) and the texture control word (TCW); here
 * each field is already extracted and carries the range its bit width allows.
 */
module PvrHardware {

  /** Unsigned values of the widths the register fields and `u32` have. */
  type U2 = x: nat | x < 4
  type U3 = x: nat | x < 8
  type U32 = x: nat | x < 0x1_0000_0000

  /** The display list a polygon belongs to. The modifier-volume lists and
      any other list code take none of the special branches. */
  datatype ListType = Opaque | Translucent | PunchThrough | OtherList

  /** ISP/TSP instruction word: depth compare mode, culling, Z write disable. */
  datatype Isp = Isp(depthMode: U3, cullMode: U2, zWriteDis: bool)

  /** TSP word: blend instructions, shading, filtering and alpha handling. */
  datatype Tsp = Tsp(
    srcInstr: U3,
    dstInstr: U3,
    shadInstr: U2,
    filterMode: U2,
    colorClamp: bool,
    useAlpha: bool,
    ignoreTexA: bool,
    fogCtrl: U2)

  /** Parameter control word flags. */
  datatype Pcw = Pcw(gouraud: bool, offset: bool, texture: bool, shadow: bool)

  /** Texture control word: only the pixel format matters here. */
  datatype Tcw = Tcw(pixelFmt: U3)

  /** One polygon's parameters; `tileclip` keeps its clip mode in bits 28..31. */
  datatype PolyParam = PolyParam(isp: Isp, tsp: Tsp, pcw: Pcw, tcw: Tcw, tileclip: U32)

  /** TCW pixel format code of bump-map textures. */
  const PixelBumpMap: U3 := 4

  /** The clip mode selector, `tileclip >> 28`. */
  function TileClipMode(tileclip: U32): (mode: nat)
    ensures mode < 16
    ensures mode * 0x1000_0000 <= tileclip < (mode + 1) * 0x1000_0000
  {
    tileclip / 0x1000_0000
  }

  /** Renderer state read at the time a pipeline is created: the
      per-strip sorting setting and the frame's fog clamp colours. */
  datatype Globals = Globals(perStripSorting: bool, fogClampMin: U32, fogClampMax: U32)
}
