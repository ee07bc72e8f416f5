/**
 * The window-size menu shared by `SettingsManager.SelectWindowSize` and the
 * copy in `Program`: the preset list, `GetResolutionFromOption`, the search
 * for the preset matching the current size, and the custom-size validation.
 */
module WindowSizes {
  import opened Wrappers
  import opened Text

  /** A preset entry: the menu shows it as `"<width>x<height> <caption>"`. */
  datatype Preset = Preset(width: nat, height: nat, caption: string)

  const SizePresets: seq<Preset> := [
      Preset(426, 240, "(240p)"),
      Preset(640, 360, "(360p)"),
      Preset(854, 480, "(480p)"),
      Preset(1024, 576, "(576p)"),
      Preset(800, 600, "(SVGA - Default)"),
      Preset(1024, 768, "(XGA)"),
      Preset(1280, 720, "(HD 720p)"),
      Preset(1280, 800, "(WXGA)"),
      Preset(1366, 768, "(WXGA)"),
      Preset(1440, 900, "(WXGA+)"),
      Preset(1600, 900, "(HD+)"),
      Preset(1680, 1050, "(WSXGA+)"),
      Preset(1920, 1080, "(Full HD 1080p)"),
      Preset(1920, 1200, "(WUXGA)"),
      Preset(2048, 1152, "(2K)"),
      Preset(2560, 1440, "(1440p QHD)"),
      Preset(2560, 1600, "(WQXGA)"),
      Preset(3840, 2160, "(4K UHD)"),
      Preset(4096, 2160, "(4K DCI)"),
      Preset(2560, 1080, "(21:9 Ultrawide)"),
      Preset(3440, 1440, "(21:9 Ultrawide QHD)"),
      Preset(3840, 1080, "(Dual 1080p)"),
      Preset(3840, 1200, "(Dual 1920x1200)"),
      Preset(5120, 1440, "(Dual 1440p)"),
      Preset(5760, 1080, "(Triple 1080p)"),
      Preset(7680, 2160, "(Dual 4K)"),
      Preset(7680, 4320, "(8K UHD)"),
      Preset(11520, 2160, "(Triple 4K Ultrawide)")
    ]

  /** The menu text of a preset, e.g. `"1920x1080 (Full HD 1080p)"`. */
  function OptionText(p: Preset): string
  {
    Decimal(p.width) + "x" + Decimal(p.height) + " " + p.caption
  }

  /** The last entry of the size menu. */
  const CustomSizeOption: string := "Custom Size..."

  /** Index of the custom-size entry; the menu has `CustomIndex + 1` entries. */
  const CustomIndex: nat := |SizePresets|

  /** `sizeOptions[i]`: the presets' texts, then the custom-size entry. */
  function SizeOption(i: nat): string
    requires i <= CustomIndex
  {
    if i < CustomIndex then OptionText(SizePresets[i]) else CustomSizeOption
  }

  /** The size `option` names, when the text before its first space is two integers joined by one `x`. */
  function TryResolution(option: string): Option<(int, int)>
  {
    var parts := Split(FirstPiece(option, ' '), 'x');
    if |parts| == 2 && ParseInt32(parts[0]).Some? && ParseInt32(parts[1]).Some?
    then Some((ParseInt32(parts[0]).value, ParseInt32(parts[1]).value))
    else None
  }

  /** `GetResolutionFromOption`: the named size, or 800x600 for text that does not name one. */
  function GetResolutionFromOption(option: string): (int, int)
  {
    TryResolution(option).GetOr((800, 600))
  }

  /** `"WxH caption"` with decimal W and H in the 32-bit range reads back as (W, H). */
  lemma ResolutionOfFormatted(w: nat, h: nat, caption: string)
    requires w <= Int32Max && h <= Int32Max
    ensures TryResolution(Decimal(w) + "x" + Decimal(h) + " " + caption) == Some((w, h))
  {
    ParseDecimal(w);
    ParseDecimal(h);
    SizeTextParses(Decimal(w), Decimal(h), w, h, caption);
  }

  /** Digit runs around an `x`, then a space and anything: the size the two runs parse to. */
  lemma SizeTextParses(a: string, b: string, w: int, h: int, caption: string)
    requires AllDigits(a) && AllDigits(b)
    requires ParseInt32(a) == Some(w) && ParseInt32(b) == Some(h)
    ensures TryResolution(a + "x" + b + " " + caption) == Some((w, h))
  {
    NoSeparatorInDigits(a, 'x');
    NoSeparatorInDigits(b, 'x');
    NoSeparatorInDigits(a, ' ');
    NoSeparatorInDigits(b, ' ');
    var size := a + ['x'] + b;
    assert ' ' !in size;
    assert a + "x" + b + " " + caption == size + [' '] + caption;
    FirstPieceOf(size, ' ', caption);
    SplitPair(a, 'x', b);
  }

  lemma NoSeparatorInDigits(s: string, c: char)
    requires AllDigits(s) && !IsDigit(c)
    ensures c !in s
  {
  }

  /** Every preset entry of the size menu names its own size. */
  lemma PresetsParse()
    ensures forall k :: 0 <= k < CustomIndex ==>
      TryResolution(SizeOption(k)) == Some((SizePresets[k].width, SizePresets[k].height))
  {
    forall k | 0 <= k < CustomIndex
      ensures TryResolution(SizeOption(k)) == Some((SizePresets[k].width, SizePresets[k].height))
    {
      var p := SizePresets[k];
      ResolutionOfFormatted(p.width, p.height, p.caption);
    }
  }

  /** Text without an `x` never names a size: it reads as the 800x600 fallback. */
  lemma NoSeparatorFallback(option: string)
    requires 'x' !in option
    ensures TryResolution(option) == None
    ensures GetResolutionFromOption(option) == (800, 600)
  {
    var first := FirstPiece(option, ' ');
    JoinSplit(option, ' ');
    PieceOfJoin(Split(option, ' '), ' ');
    assert 'x' !in first;
  }

  lemma {:induction false} PieceOfJoin(parts: seq<string>, c: char)
    requires |parts| >= 1
    ensures forall ch :: ch in parts[0] ==> ch in Join(parts, c)
  {
    if |parts| > 1 {
      assert Join(parts, c) == parts[0] + [c] + Join(parts[1..], c);
    }
  }

  /** Entry `i` of the size menu reads as the size of preset `i`. */
  lemma PresetParses(i: nat)
    requires i < CustomIndex
    ensures GetResolutionFromOption(SizeOption(i)) == (SizePresets[i].width, SizePresets[i].height)
  {
    var p := SizePresets[i];
    ResolutionOfFormatted(p.width, p.height, p.caption);
  }

  /** `GetResolutionFromOption(sizeOptions[i])` for a preset entry: that preset's size. */
  method ReadPresetEntry(i: nat) returns (resolution: (int, int))
    requires i < CustomIndex
    ensures resolution == (SizePresets[i].width, SizePresets[i].height)
  {
    resolution := GetResolutionFromOption(SizeOption(i));
    PresetParses(i);
  }

  /**
   * `currentIndex` is the first preset whose size is `(width, height)`, or -1
   * when no preset has that size.
   */
  predicate IsFirstMatch(width: int, height: int, currentIndex: int)
  {
    -1 <= currentIndex < CustomIndex
    && (currentIndex >= 0 ==> SizePresets[currentIndex].width == width && SizePresets[currentIndex].height == height)
    && forall i :: 0 <= i < CustomIndex && (currentIndex == -1 || i < currentIndex) ==>
         (SizePresets[i].width, SizePresets[i].height) != (width, height)
  }

  /**
   * The search for the entry to highlight as current: each entry before the
   * custom-size one is read back with `GetResolutionFromOption` and compared
   * with `(width, height)`; the result is the first preset of that size, or -1.
   */
  method CurrentPresetIndex(width: int, height: int) returns (currentIndex: int)
    ensures IsFirstMatch(width, height, currentIndex)
  {
    currentIndex := -1;
    var i := 0;
    while i < CustomIndex
      invariant 0 <= i <= CustomIndex
      invariant forall j :: 0 <= j < i ==> (SizePresets[j].width, SizePresets[j].height) != (width, height)
    {
      var resolution := ReadPresetEntry(i);
      if resolution == (width, height) {
        currentIndex := i;
        break;
      }
      i := i + 1;
    }
  }

  /** Both entries of the custom-size dialog are integers above zero. */
  predicate ValidCustom(widthText: string, heightText: string)
  {
    ParseInt32(widthText).Some? && ParseInt32(widthText).value > 0
    && ParseInt32(heightText).Some? && ParseInt32(heightText).value > 0
  }

  /** The custom-size dialog: both entries must be integers above zero, otherwise nothing changes. */
  function CustomSize(width: int, height: int, widthText: string, heightText: string): (r: (int, int))
    ensures ValidCustom(widthText, heightText) ==>
      r == (ParseInt32(widthText).value, ParseInt32(heightText).value) && 0 < r.0 && 0 < r.1
    ensures !ValidCustom(widthText, heightText) ==> r == (width, height)
  {
    match ParseInt32(widthText)
    case Some(w) =>
      if w > 0 then
        (match ParseInt32(heightText)
         case Some(h) => if h > 0 then (w, h) else (width, height)
         case None => (width, height))
      else (width, height)
    case None => (width, height)
  }

  /**
   * The size after the size menu returned `sel`: unchanged on Escape (-1),
   * the custom dialog's result for the last entry, the preset's size otherwise.
   */
  function WindowSizeAfter(sel: int, width: int, height: int, widthText: string, heightText: string): (int, int)
    requires -1 <= sel <= CustomIndex
  {
    if sel == -1 then (width, height)
    else if sel == CustomIndex then CustomSize(width, height, widthText, heightText)
    else (SizePresets[sel].width, SizePresets[sel].height)
  }

  /** Escape and an invalid custom entry leave the size as it was. */
  lemma UnchangedSize(sel: int, width: int, height: int, widthText: string, heightText: string)
    requires sel == -1 || (sel == CustomIndex && !ValidCustom(widthText, heightText))
    ensures WindowSizeAfter(sel, width, height, widthText, heightText) == (width, height)
  {
  }
}
