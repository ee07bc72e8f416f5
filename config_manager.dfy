/**
 * The persisted application settings (`ConfigManager`): the `AppConfig`
 * record with its defaults, the property setters, reset, and the hex
 * encoding of the custom palette.
 */
module ConfigManager {
  import opened Wrappers
  import opened Colors

  datatype AppConfig = AppConfig(
    transparencyMode: bool,
    alwaysOnTopMode: bool,
    fullScreenDefault: bool,
    selectedWindowWidth: int,
    selectedWindowHeight: int,
    selectedVisual: int,
    selectedPalette: int,
    autoStartVisualizer: bool,
    toggleRememberPosition: bool,
    windowPositionX: int,
    windowPositionY: int,
    customPaletteColors: seq<string>)

  /** `new AppConfig()`: every field at its declared initial value. */
  const Defaults: AppConfig := AppConfig(
    transparencyMode := false,
    alwaysOnTopMode := false,
    fullScreenDefault := false,
    selectedWindowWidth := 800,
    selectedWindowHeight := 600,
    selectedVisual := 0,
    selectedPalette := 0,
    autoStartVisualizer := false,
    toggleRememberPosition := false,
    windowPositionX := -1,
    windowPositionY := -1,
    customPaletteColors := [])

  /** `SaveCustomPalette`'s list: one `#RRGGBB` string per colour, in order. */
  function EncodePalette(palette: seq<Color>): (strings: seq<string>)
    ensures |strings| == |palette|
    ensures forall i :: 0 <= i < |palette| ==> strings[i] == ToHex(palette[i])
  {
    if |palette| == 0 then []
    else [ToHex(palette[0])] + EncodePalette(palette[1..])
  }

  /** `LoadCustomPalette`: the parseable strings, in order; the others are skipped. */
  function DecodePalette(strings: seq<string>): (palette: seq<Color>)
    ensures |palette| <= |strings|
    ensures |palette| == |strings| <==> forall i :: 0 <= i < |strings| ==> ParseColor(strings[i]).Some?
  {
    if |strings| == 0 then []
    else
      var rest := DecodePalette(strings[1..]);
      assert forall i :: 1 <= i < |strings| ==> strings[1..][i - 1] == strings[i];
      match ParseColor(strings[0])
      case Some(c) => [c] + rest
      case None => rest
  }

  /** Decoding works string by string, so it distributes over concatenation. */
  lemma {:induction false} DecodeAppend(a: seq<string>, b: seq<string>)
    ensures DecodePalette(a + b) == DecodePalette(a) + DecodePalette(b)
  {
    if |a| == 0 {
      assert a + b == b;
    } else {
      assert (a + b)[0] == a[0];
      assert (a + b)[1..] == a[1..] + b;
      DecodeAppend(a[1..], b);
    }
  }

  /** Every colour made opaque: what survives a save and a load. */
  function OpaqueAll(palette: seq<Color>): (r: seq<Color>)
    ensures |r| == |palette|
    ensures forall i :: 0 <= i < |palette| ==> r[i] == Opaque(palette[i])
  {
    seq(|palette|, i requires 0 <= i < |palette| => Opaque(palette[i]))
  }

  /** Loading right after saving gives back the same colours, in order, made opaque. */
  lemma DecodeEncode(palette: seq<Color>)
    ensures DecodePalette(EncodePalette(palette)) == OpaqueAll(palette)
  {
    var e := EncodePalette(palette);
    forall i | 0 <= i < |e|
      ensures ParseColor(e[i]) == Some(OpaqueAll(palette)[i])
    {
      ParseToHex(palette[i]);
    }
    DecodeAllParsed(e, OpaqueAll(palette));
  }

  /** When every string parses, decoding is exactly the list of parsed colours. */
  lemma {:induction false} DecodeAllParsed(strings: seq<string>, colors: seq<Color>)
    requires |strings| == |colors|
    requires forall i :: 0 <= i < |strings| ==> ParseColor(strings[i]) == Some(colors[i])
    ensures DecodePalette(strings) == colors
  {
    if |strings| > 0 {
      DecodeAllParsed(strings[1..], colors[1..]);
    }
  }

  /** The stored form is a fixed point: saving what was loaded from a save changes no string. */
  lemma {:induction false} EncodeDecodeEncode(palette: seq<Color>)
    ensures EncodePalette(DecodePalette(EncodePalette(palette))) == EncodePalette(palette)
  {
    DecodeEncode(palette);
    EncodeOpaque(palette);
  }

  lemma {:induction false} EncodeOpaque(palette: seq<Color>)
    ensures EncodePalette(OpaqueAll(palette)) == EncodePalette(palette)
  {
    if |palette| > 0 {
      assert OpaqueAll(palette)[1..] == OpaqueAll(palette[1..]);
      EncodeOpaque(palette[1..]);
    }
  }

  /** The static `ConfigManager` and its `_config`. */
  class ConfigStore {
    var config: AppConfig

    constructor()
      ensures config == Defaults
    {
      config := Defaults;
    }

    method ResetToDefaults()
      modifies this
      ensures config == Defaults
    {
      config := Defaults;
    }

    method SetTransparencyMode(value: bool)
      modifies this
      ensures config == old(config).(transparencyMode := value)
    {
      config := config.(transparencyMode := value);
    }

    method SetAlwaysOnTopMode(value: bool)
      modifies this
      ensures config == old(config).(alwaysOnTopMode := value)
    {
      config := config.(alwaysOnTopMode := value);
    }

    method SetFullScreenDefault(value: bool)
      modifies this
      ensures config == old(config).(fullScreenDefault := value)
    {
      config := config.(fullScreenDefault := value);
    }

    method SetSelectedWindowWidth(value: int)
      modifies this
      ensures config == old(config).(selectedWindowWidth := value)
    {
      config := config.(selectedWindowWidth := value);
    }

    method SetSelectedWindowHeight(value: int)
      modifies this
      ensures config == old(config).(selectedWindowHeight := value)
    {
      config := config.(selectedWindowHeight := value);
    }

    method SetSelectedVisual(value: int)
      modifies this
      ensures config == old(config).(selectedVisual := value)
    {
      config := config.(selectedVisual := value);
    }

    method SetSelectedPalette(value: int)
      modifies this
      ensures config == old(config).(selectedPalette := value)
    {
      config := config.(selectedPalette := value);
    }

    method SetAutoStartVisualizer(value: bool)
      modifies this
      ensures config == old(config).(autoStartVisualizer := value)
    {
      config := config.(autoStartVisualizer := value);
    }

    method SetCustomPaletteColors(value: seq<string>)
      modifies this
      ensures config == old(config).(customPaletteColors := value)
    {
      config := config.(customPaletteColors := value);
    }

    method SetToggleRememberPosition(value: bool)
      modifies this
      ensures config == old(config).(toggleRememberPosition := value)
    {
      config := config.(toggleRememberPosition := value);
    }

    method SetWindowPositionX(value: int)
      modifies this
      ensures config == old(config).(windowPositionX := value)
    {
      config := config.(windowPositionX := value);
    }

    method SetWindowPositionY(value: int)
      modifies this
      ensures config == old(config).(windowPositionY := value)
    {
      config := config.(windowPositionY := value);
    }

    /** Stores the palette as `#RRGGBB` strings through the `CustomPaletteColors` setter. */
    method SaveCustomPalette(palette: seq<Color>)
      modifies this
      ensures config == old(config).(customPaletteColors := EncodePalette(palette))
    {
      var strings: seq<string> := [];
      var i := 0;
      while i < |palette|
        invariant 0 <= i <= |palette|
        invariant |strings| == i
        invariant forall k :: 0 <= k < i ==> strings[k] == ToHex(palette[k])
      {
        strings := strings + [ToHex(palette[i])];
        i := i + 1;
      }
      assert strings == EncodePalette(palette);
      SetCustomPaletteColors(strings);
    }

    /** The stored colours that parse, in order. */
    function LoadCustomPalette(): (palette: seq<Color>)
      reads this
      ensures |palette| <= |config.customPaletteColors|
    {
      DecodePalette(config.customPaletteColors)
    }
  }
}
