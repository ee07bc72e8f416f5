/**
 * The eight predefined palettes (the `PredefinedPalettes` dictionary, in its
 * insertion order, which is the order its `Keys` enumerate) and the rule that
 * picks the palette the renderers draw with.
 */
module Palettes {
  import opened Wrappers
  import opened Colors

  /** `PredefinedPalettes["Rainbow"]`. */
  const Rainbow: seq<Color> := [
    Rgb(0xFF, 0x00, 0x00), Rgb(0xFF, 0x80, 0x00), Rgb(0xFF, 0xFF, 0x00), Rgb(0x80, 0xFF, 0x00),
    Rgb(0x00, 0xFF, 0x00), Rgb(0x00, 0xFF, 0x80), Rgb(0x00, 0xFF, 0xFF), Rgb(0x00, 0x80, 0xFF),
    Rgb(0x00, 0x00, 0xFF), Rgb(0x80, 0x00, 0xFF), Rgb(0xFF, 0x00, 0xFF), Rgb(0xFF, 0x00, 0x80)
  ]

  /** `PredefinedPalettes["Neon"]`. */
  const Neon: seq<Color> := [
    Rgb(0xFF, 0x00, 0x80), Rgb(0xFF, 0x00, 0xFF), Rgb(0x80, 0x00, 0xFF), Rgb(0x00, 0x80, 0xFF),
    Rgb(0x00, 0xFF, 0xFF), Rgb(0x00, 0xFF, 0x80), Rgb(0x80, 0xFF, 0x00), Rgb(0xFF, 0xFF, 0x00)
  ]

  /** `PredefinedPalettes["Ocean"]`. */
  const Ocean: seq<Color> := [
    Rgb(0x00, 0x11, 0x22), Rgb(0x00, 0x33, 0x66), Rgb(0x00, 0x66, 0xAA), Rgb(0x00, 0x99, 0xCC),
    Rgb(0x33, 0xAA, 0xDD), Rgb(0x66, 0xCC, 0xEE), Rgb(0x99, 0xDD, 0xFF), Rgb(0xCC, 0xEE, 0xEE)
  ]

  /** `PredefinedPalettes["Fire"]`. */
  const Fire: seq<Color> := [
    Rgb(0x66, 0x00, 0x00), Rgb(0xCC, 0x00, 0x00), Rgb(0xFF, 0x33, 0x00), Rgb(0xFF, 0x66, 0x00),
    Rgb(0xFF, 0x99, 0x00), Rgb(0xFF, 0xCC, 0x00), Rgb(0xFF, 0xFF, 0x00), Rgb(0xFF, 0xFF, 0x99)
  ]

  /** `PredefinedPalettes["Sunset"]`. */
  const Sunset: seq<Color> := [
    Rgb(0x2E, 0x10, 0x65), Rgb(0x6A, 0x1B, 0x9A), Rgb(0xAD, 0x14, 0x57), Rgb(0xD3, 0x2F, 0x2F),
    Rgb(0xF5, 0x7C, 0x00), Rgb(0xFB, 0xC0, 0x2D), Rgb(0xFF, 0xE0, 0x82), Rgb(0xFF, 0xF3, 0xE0)
  ]

  /** `PredefinedPalettes["Synthwave"]`. */
  const Synthwave: seq<Color> := [
    Rgb(0xFF, 0x00, 0xFF), Rgb(0xFF, 0x00, 0x80), Rgb(0x80, 0x00, 0xFF), Rgb(0x00, 0x80, 0xFF),
    Rgb(0x00, 0xFF, 0xFF), Rgb(0xFF, 0x80, 0x00), Rgb(0xFF, 0xFF, 0x00), Rgb(0xFF, 0x00, 0x40)
  ]

  /** `PredefinedPalettes["Monochrome"]`. */
  const Monochrome: seq<Color> := [
    Rgb(0x00, 0x00, 0x00), Rgb(0x33, 0x33, 0x33), Rgb(0x66, 0x66, 0x66), Rgb(0x99, 0x99, 0x99),
    Rgb(0xCC, 0xCC, 0xCC), Rgb(0xFF, 0xFF, 0xFF)
  ]

  /** `PredefinedPalettes["Forest"]`. */
  const Forest: seq<Color> := [
    Rgb(0x0D, 0x28, 0x18), Rgb(0x1B, 0x5E, 0x20), Rgb(0x2E, 0x7D, 0x32), Rgb(0x43, 0xA0, 0x47),
    Rgb(0x66, 0xBB, 0x6A), Rgb(0x81, 0xC7, 0x84), Rgb(0xA5, 0xD6, 0xA7), Rgb(0xC8, 0xE6, 0xC9)
  ]
  const PaletteNames: seq<string> :=
    ["Rainbow", "Neon", "Ocean", "Fire", "Sunset", "Synthwave", "Monochrome", "Forest"]

  const PredefinedPalettes: seq<seq<Color>> :=
    [Rainbow, Neon, Ocean, Fire, Sunset, Synthwave, Monochrome, Forest]

  /** `PredefinedPalettes.Keys.Count`: also the menu index of the custom palette. */
  const PredefinedCount: int := 8

  lemma PredefinedShape()
    ensures |PaletteNames| == |PredefinedPalettes| == PredefinedCount
    ensures forall i :: 0 <= i < PredefinedCount ==> |PredefinedPalettes[i]| >= 6
  {
  }

  /**
   * `GetCurrentPalette`: the predefined palette at `selected` while it is below
   * the number of predefined palettes, otherwise the custom palette when it
   * has colours, otherwise Rainbow. A negative `selected` indexes the key array
   * out of range, which is `None` here.
   */
  function ChoosePalette(selected: int, custom: seq<Color>): (r: Option<seq<Color>>)
    ensures r.None? <==> selected < 0
    ensures r.Some? ==> |r.value| > 0
    ensures 0 <= selected < PredefinedCount ==> r == Some(PredefinedPalettes[selected])
    ensures selected >= PredefinedCount && |custom| > 0 ==> r == Some(custom)
    ensures selected >= PredefinedCount && |custom| == 0 ==> r == Some(Rainbow)
  {
    if selected < 0 then None
    else if selected < PredefinedCount then Some(PredefinedPalettes[selected])
    else if |custom| > 0 then Some(custom)
    else Some(Rainbow)
  }
}
