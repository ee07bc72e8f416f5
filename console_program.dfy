/**
 * `Program`: the console front end's own state (window size, palette choice
 * and the custom palette held in memory) and its helpers: the window-size
 * menu, the interactive RGB colour picker with its preview colour, the edits
 * of the custom palette by 1-based index, and the palette handed to the
 * visualizer.
 */
module ConsoleProgram {
  import opened Wrappers
  import opened Text
  import opened Colors
  import opened Palettes
  import opened PaletteManager
  import opened WindowSizes

  // ---------------------------------------------------------------------
  // The interactive colour picker
  // ---------------------------------------------------------------------

  /** The keys the picker reacts to; any other key only redraws the screen. */
  datatype PickerKey = UpArrow | DownArrow | LeftArrow | RightArrow | Enter | Escape | OtherKey

  /** The picker's locals: the three channel values and the selected channel (0 red, 1 green, 2 blue). */
  datatype Picker = Picker(red: int, green: int, blue: int, channel: int)

  predicate ValidPicker(p: Picker)
  {
    0 <= p.red <= 255 && 0 <= p.green <= 255 && 0 <= p.blue <= 255 && 0 <= p.channel < 3
  }

  /** The picker opens on pure red with the red channel selected. */
  const PickerStart: Picker := Picker(255, 0, 0, 0)

  /** The value of the selected channel. */
  function Selected(p: Picker): int
  {
    if p.channel == 0 then p.red else if p.channel == 1 then p.green else p.blue
  }

  /** `Math.Min(255, v + 5)`. */
  function Raise(v: int): int
  {
    if v + 5 < 255 then v + 5 else 255
  }

  /** `Math.Max(0, v - 5)`. */
  function Lower(v: int): int
  {
    if v - 5 > 0 then v - 5 else 0
  }

  /** The selected channel set to `v`, the others as they were. */
  function SetSelected(p: Picker, v: int): Picker
  {
    if p.channel == 0 then p.(red := v) else if p.channel == 1 then p.(green := v) else p.(blue := v)
  }

  /** The effect of one key that neither confirms nor cancels. */
  function PickerStep(p: Picker, key: PickerKey): (q: Picker)
    requires ValidPicker(p)
    ensures ValidPicker(q)
  {
    match key
    case UpArrow => SetSelected(p, Raise(Selected(p)))
    case DownArrow => SetSelected(p, Lower(Selected(p)))
    case RightArrow => p.(channel := (p.channel + 1) % 3)
    case LeftArrow => p.(channel := (p.channel - 1 + 3) % 3)
    case _ => p
  }

  /**
   * How the picker ends on the keys `keys`: the colour on Enter, nothing on
   * Escape, or still waiting for a key when the sequence runs out.
   */
  datatype PickerOutcome = Picked(color: Color) | Cancelled | Waiting(state: Picker)

  function PickerRun(p: Picker, keys: seq<PickerKey>): PickerOutcome
    requires ValidPicker(p)
    decreases |keys|
  {
    if |keys| == 0 then Waiting(p)
    else if keys[0] == Enter then Picked(Rgb(p.red, p.green, p.blue))
    else if keys[0] == Escape then Cancelled
    else PickerRun(PickerStep(p, keys[0]), keys[1..])
  }

  /** Keys that move the picker without ending it. */
  predicate Navigation(keys: seq<PickerKey>)
  {
    forall k :: 0 <= k < |keys| ==> keys[k] != Enter && keys[k] != Escape
  }

  /** The state after a run of navigation keys. */
  function Navigate(p: Picker, keys: seq<PickerKey>): (q: Picker)
    requires ValidPicker(p)
    ensures ValidPicker(q)
    decreases |keys|
  {
    if |keys| == 0 then p else Navigate(PickerStep(p, keys[0]), keys[1..])
  }

  /**
   * The first Enter or Escape decides the outcome: Enter returns the colour
   * reached by the keys before it, Escape returns nothing, and the keys after
   * it are never read.
   */
  lemma {:induction false} FirstExitDecides(p: Picker, nav: seq<PickerKey>, exit: PickerKey, rest: seq<PickerKey>)
    requires ValidPicker(p) && Navigation(nav) && (exit == Enter || exit == Escape)
    ensures var q := Navigate(p, nav);
      PickerRun(p, nav + [exit] + rest) == if exit == Enter then Picked(Rgb(q.red, q.green, q.blue)) else Cancelled
    decreases |nav|
  {
    if |nav| == 0 {
      assert nav + [exit] + rest == [exit] + rest;
    } else {
      assert (nav + [exit] + rest)[1..] == nav[1..] + [exit] + rest;
      FirstExitDecides(PickerStep(p, nav[0]), nav[1..], exit, rest);
    }
  }

  /** Up changes only the selected channel, to `min(255, v + 5)`. */
  lemma UpRaisesSelected(p: Picker)
    requires ValidPicker(p)
    ensures var q := PickerStep(p, UpArrow);
      q.channel == p.channel && Selected(q) == (if Selected(p) + 5 < 255 then Selected(p) + 5 else 255)
      && (p.channel != 0 ==> q.red == p.red)
      && (p.channel != 1 ==> q.green == p.green)
      && (p.channel != 2 ==> q.blue == p.blue)
  {
  }

  /** Down changes only the selected channel, to `max(0, v - 5)`. */
  lemma DownLowersSelected(p: Picker)
    requires ValidPicker(p)
    ensures var q := PickerStep(p, DownArrow);
      q.channel == p.channel && Selected(q) == (if Selected(p) - 5 > 0 then Selected(p) - 5 else 0)
      && (p.channel != 0 ==> q.red == p.red)
      && (p.channel != 1 ==> q.green == p.green)
      && (p.channel != 2 ==> q.blue == p.blue)
  {
  }

  /** Away from the clamps, Down undoes Up. */
  lemma UpThenDown(p: Picker)
    requires ValidPicker(p) && Selected(p) < 250
    ensures PickerStep(PickerStep(p, UpArrow), DownArrow) == p
  {
    var q := PickerStep(p, UpArrow);
    assert Selected(q) == Selected(p) + 5;
  }

  /** Left undoes Right, and three Rights come back to the same channel. */
  lemma ChannelCycle(p: Picker)
    requires ValidPicker(p)
    ensures PickerStep(PickerStep(p, RightArrow), LeftArrow) == p
    ensures Navigate(p, [RightArrow, RightArrow, RightArrow]) == p
  {
    var r1 := PickerStep(p, RightArrow);
    var r2 := PickerStep(r1, RightArrow);
    var r3 := PickerStep(r2, RightArrow);
    assert Navigate(p, [RightArrow, RightArrow, RightArrow]) == Navigate(r1, [RightArrow, RightArrow]);
    assert Navigate(r1, [RightArrow, RightArrow]) == Navigate(r2, [RightArrow]);
    assert Navigate(r2, [RightArrow]) == Navigate(r3, []);
  }

  /**
   * `InteractiveColorPicker`: reads keys until Enter (the colour as an opaque
   * SKColor) or Escape (`null`).
   */
  method InteractiveColorPicker(keys: seq<PickerKey>) returns (outcome: PickerOutcome)
    ensures outcome == PickerRun(PickerStart, keys)
  {
    var red, green, blue := 255, 0, 0;
    var selectedChannel := 0;
    var i := 0;
    while i < |keys|
      invariant 0 <= i <= |keys|
      invariant ValidPicker(Picker(red, green, blue, selectedChannel))
      invariant PickerRun(Picker(red, green, blue, selectedChannel), keys[i..]) == PickerRun(PickerStart, keys)
    {
      assert keys[i..][0] == keys[i] && keys[i..][1..] == keys[i + 1..];
      var key := keys[i];
      match key {
        case UpArrow =>
          if selectedChannel == 0 {
            red := if red + 5 < 255 then red + 5 else 255;
          } else if selectedChannel == 1 {
            green := if green + 5 < 255 then green + 5 else 255;
          } else {
            blue := if blue + 5 < 255 then blue + 5 else 255;
          }
        case DownArrow =>
          if selectedChannel == 0 {
            red := if red - 5 > 0 then red - 5 else 0;
          } else if selectedChannel == 1 {
            green := if green - 5 > 0 then green - 5 else 0;
          } else {
            blue := if blue - 5 > 0 then blue - 5 else 0;
          }
        case RightArrow =>
          selectedChannel := (selectedChannel + 1) % 3;
        case LeftArrow =>
          selectedChannel := (selectedChannel - 1 + 3) % 3;
        case Enter =>
          return Picked(Rgb(red, green, blue));
        case Escape =>
          return Cancelled;
        case OtherKey =>
      }
      i := i + 1;
    }
    outcome := Waiting(Picker(red, green, blue, selectedChannel));
  }

  // ---------------------------------------------------------------------
  // The preview colour
  // ---------------------------------------------------------------------

  datatype ConsoleColor = Black | DarkGray | Gray | White | Red | Green | Blue | Yellow | Magenta | Cyan

  /**
   * `GetClosestAnsiColor`: ordered first-match rules. Apart from White coming
   * before Gray, no two rules can both hold, so each colour is chosen exactly
   * when its own rule holds.
   */
  function GetClosestAnsiColor(r: int, g: int, b: int): (c: ConsoleColor)
    ensures c == White <==> r > 200 && g > 200 && b > 200
    ensures c == Black <==> r < 50 && g < 50 && b < 50
    ensures c == Red <==> r > 150 && g < 100 && b < 100
    ensures c == Green <==> r < 100 && g > 150 && b < 100
    ensures c == Blue <==> r < 100 && g < 100 && b > 150
    ensures c == Yellow <==> r > 150 && g > 150 && b < 100
    ensures c == Magenta <==> r > 150 && g < 100 && b > 150
    ensures c == Cyan <==> r < 100 && g > 150 && b > 150
    ensures c == Gray <==> r > 100 && g > 100 && b > 100 && !(r > 200 && g > 200 && b > 200)
  {
    if r > 200 && g > 200 && b > 200 then White
    else if r < 50 && g < 50 && b < 50 then Black
    else if r > 150 && g < 100 && b < 100 then Red
    else if r < 100 && g > 150 && b < 100 then Green
    else if r < 100 && g < 100 && b > 150 then Blue
    else if r > 150 && g > 150 && b < 100 then Yellow
    else if r > 150 && g < 100 && b > 150 then Magenta
    else if r < 100 && g > 150 && b > 150 then Cyan
    else if r > 100 && g > 100 && b > 100 then Gray
    else DarkGray
  }

  /** A grey level previews as Black, DarkGray, Gray or White by brightness alone. */
  lemma GreyPreview(v: int)
    ensures GetClosestAnsiColor(v, v, v) ==
      if v > 200 then White else if v > 100 then Gray else if v < 50 then Black else DarkGray
  {
  }

  // ---------------------------------------------------------------------
  // The console's own state
  // ---------------------------------------------------------------------

  /**
   * The replacement colour `ReplaceColor` obtains: method "1" parses the
   * trimmed hex line (with `#` prepended when missing), method "2" runs the
   * picker, any other answer gives none.
   */
  function ReplacementColor(methodText: string, hexText: string, keys: seq<PickerKey>): (c: Option<Color>)
    ensures methodText == "1" ==> c == ParseEntry(Trim(hexText))
    ensures methodText == "2" ==> (c.Some? <==> PickerRun(PickerStart, keys).Picked?)
    ensures methodText == "2" && c.Some? ==> c.value == PickerRun(PickerStart, keys).color
    ensures methodText != "1" && methodText != "2" ==> c == None
  {
    if methodText == "1" then ParseEntry(Trim(hexText))
    else if methodText == "2" then
      (match PickerRun(PickerStart, keys)
       case Picked(color) => Some(color)
       case _ => None)
    else None
  }

  /** The custom palette after `ReplaceColor`, or `None` when it is left as it was. */
  function ConsoleReplaceEdit(palette: seq<Color>, indexText: string, newColor: Option<Color>): (r: Option<seq<Color>>)
    ensures r.Some? <==> ChosenIndex(indexText, |palette|).Some? && newColor.Some?
    ensures r.Some? ==> |r.value| == |palette|
    ensures r.Some? ==> r.value[ChosenIndex(indexText, |palette|).value] == newColor.value
    ensures r.Some? ==>
      (forall j :: 0 <= j < |palette| && j != ChosenIndex(indexText, |palette|).value ==> r.value[j] == palette[j])
  {
    match ChosenIndex(indexText, |palette|)
    case Some(i) => if newColor.Some? then Some(palette[i := newColor.value]) else None
    case None => None
  }

  /** With the hex method the console's edit is exactly the palette editor's `ReplaceEdit`. */
  lemma HexReplaceAgrees(palette: seq<Color>, indexText: string, hexText: string, keys: seq<PickerKey>)
    ensures ConsoleReplaceEdit(palette, indexText, ReplacementColor("1", hexText, keys))
         == ReplaceEdit(palette, indexText, hexText)
  {
    var c := ReplacementColor("1", hexText, keys);
    assert c == ParseEntry(Trim(hexText));
  }

  /** The static fields of `Program` that its helpers read and write. */
  class ConsoleState {
    var selectedWindowWidth: int
    var selectedWindowHeight: int
    var selectedPalette: int
    var customPalette: seq<Color>

    /** The initial values: 800x600, Rainbow, an empty custom palette. */
    constructor ()
      ensures selectedWindowWidth == 800 && selectedWindowHeight == 600
      ensures selectedPalette == 0 && customPalette == []
    {
      selectedWindowWidth := 800;
      selectedWindowHeight := 600;
      selectedPalette := 0;
      customPalette := [];
    }

    /**
     * `GetCurrentPalette`: a negative `selectedPalette` indexes the key array
     * out of range, which is `None` here.
     */
    function GetCurrentPalette(): (r: Option<seq<Color>>)
      reads this
      ensures r.None? <==> selectedPalette < 0
      ensures r.Some? ==> |r.value| > 0
      ensures 0 <= selectedPalette < PredefinedCount ==> r == Some(PredefinedPalettes[selectedPalette])
      ensures selectedPalette >= PredefinedCount ==> r == Some(if |customPalette| > 0 then customPalette else Rainbow)
    {
      ChoosePalette(selectedPalette, customPalette)
    }

    /** `SelectWindowSize`: highlights the current preset, then applies the menu's result `sel`. */
    method SelectWindowSize(sel: int, widthText: string, heightText: string) returns (currentIndex: int)
      requires -1 <= sel <= CustomIndex
      modifies this
      ensures IsFirstMatch(old(selectedWindowWidth), old(selectedWindowHeight), currentIndex)
      ensures (selectedWindowWidth, selectedWindowHeight)
        == WindowSizeAfter(sel, old(selectedWindowWidth), old(selectedWindowHeight), widthText, heightText)
      ensures selectedPalette == old(selectedPalette) && customPalette == old(customPalette)
    {
      currentIndex := CurrentPresetIndex(selectedWindowWidth, selectedWindowHeight);
      if sel == -1 {
        return;
      }
      if sel == CustomIndex {
        var width := ParseInt32(widthText);
        if width.Some? && width.value > 0 {
          var height := ParseInt32(heightText);
          if height.Some? && height.value > 0 {
            selectedWindowWidth := width.value;
            selectedWindowHeight := height.value;
          }
        }
      } else {
        var resolution := ReadPresetEntry(sel);
        selectedWindowWidth := resolution.0;
        selectedWindowHeight := resolution.1;
      }
    }

    /** `RemoveColor`: removes element `index - 1` for `index` in 1..Count, otherwise nothing. */
    method RemoveColor(indexText: string)
      modifies this
      ensures customPalette == RemoveEdit(old(customPalette), indexText).GetOr(old(customPalette))
      ensures selectedPalette == old(selectedPalette)
      ensures selectedWindowWidth == old(selectedWindowWidth) && selectedWindowHeight == old(selectedWindowHeight)
    {
      if |customPalette| == 0 {
        return;
      }
      var index := ParseInt32(indexText);
      if index.Some? && index.value >= 1 && index.value <= |customPalette| {
        customPalette := RemoveAt(customPalette, index.value - 1);
      }
    }

    /**
     * `ReplaceColor`: for a valid index, replaces element `index - 1` with the
     * colour the chosen method yields; an invalid index, an unparseable hex
     * line, a cancelled picker or another method leave the list as it was.
     */
    method ReplaceColor(indexText: string, methodText: string, hexText: string, keys: seq<PickerKey>)
      modifies this
      ensures customPalette
        == ConsoleReplaceEdit(old(customPalette), indexText, ReplacementColor(methodText, hexText, keys))
             .GetOr(old(customPalette))
      ensures selectedPalette == old(selectedPalette)
      ensures selectedWindowWidth == old(selectedWindowWidth) && selectedWindowHeight == old(selectedWindowHeight)
    {
      if |customPalette| == 0 {
        return;
      }
      var index := ParseInt32(indexText);
      if index.Some? && index.value >= 1 && index.value <= |customPalette| {
        var newColor: Option<Color> := None;
        if methodText == "1" {
          var hex := Trim(hexText);
          if !StartsWith(hex, "#") {
            hex := "#" + hex;
          }
          newColor := ParseColor(hex);
          if newColor.None? {
            return;
          }
        } else if methodText == "2" {
          var picked := InteractiveColorPicker(keys);
          if picked.Picked? {
            newColor := Some(picked.color);
          }
        }
        if newColor.Some? {
          customPalette := customPalette[index.value - 1 := newColor.value];
        }
      }
    }
  }
}
