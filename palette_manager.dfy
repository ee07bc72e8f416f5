/**
 * `PaletteManager`: choosing a palette from the console menu and creating or
 * editing the custom palette, which lives in the configuration as `#RRGGBB`
 * strings.
 */
module PaletteManager {
  import opened Wrappers
  import opened Text
  import opened Colors
  import opened Palettes
  import opened ConfigManager

  /** One typed entry as the editor parses it: a missing `#` is prepended first. */
  function ParseEntry(input: string): Option<Color>
  {
    ParseColor(if StartsWith(input, "#") then input else "#" + input)
  }

  /** The prepended `#` never changes the outcome on trimmed input: the parser accepts the bare digits too. */
  lemma ParseEntryIsParseColor(line: string)
    ensures ParseEntry(Trim(line)) == ParseColor(Trim(line))
  {
    var t := Trim(line);
    if !StartsWith(t, "#") {
      TrimIdempotent(line);
      HashPrefixBody(t);
      SameBodySameColor("#" + t, t);
    }
  }

  lemma HashPrefixBody(t: string)
    requires t == Trim(t) && !StartsWith(t, "#")
    ensures HexBody("#" + t) == HexBody(t)
  {
    var u := "#" + t;
    assert TrimStart(u) == u;
    if |t| > 0 {
      TrimmedEdges(t);
      assert !IsWhiteSpace(t[|t| - 1]);
      assert u[|u| - 1] == t[|t| - 1];
      assert TrimEnd(u) == u;
      assert t[0] != '#';
    } else {
      assert TrimEnd(u) == u;
    }
    assert u[1..] == t;
  }

  lemma SameBodySameColor(a: string, b: string)
    requires HexBody(a) == HexBody(b)
    ensures ParseColor(a) == ParseColor(b)
  {
  }

  /** The trimmed lines read before the first blank line or the end of input. */
  function EnteredLines(lines: seq<string>): (entries: seq<string>)
    ensures |entries| <= |lines|
  {
    if |lines| == 0 || |Trim(lines[0])| == 0 then []
    else [Trim(lines[0])] + EnteredLines(lines[1..])
  }

  /** The entries that parse, in entry order; the others are reported and skipped. */
  function AcceptedColors(entries: seq<string>): (colors: seq<Color>)
    ensures |colors| <= |entries|
  {
    if |entries| == 0 then []
    else
      match ParseEntry(entries[0])
      case Some(c) => [c] + AcceptedColors(entries[1..])
      case None => AcceptedColors(entries[1..])
  }

  lemma {:induction false} AcceptedAppend(a: seq<string>, b: seq<string>)
    ensures AcceptedColors(a + b) == AcceptedColors(a) + AcceptedColors(b)
  {
    if |a| == 0 {
      assert a + b == b;
    } else {
      assert (a + b)[0] == a[0];
      assert (a + b)[1..] == a[1..] + b;
      AcceptedAppend(a[1..], b);
    }
  }

  /**
   * The read loop shared by `CreateCustomPalette` and `AddMoreColors`: read
   * lines until a blank one, add every colour that parses to the end of
   * `palette`.
   */
  method ReadHexColors(palette: seq<Color>, lines: seq<string>) returns (result: seq<Color>)
    ensures result == palette + AcceptedColors(EnteredLines(lines))
  {
    result := palette;
    var i := 0;
    assert lines[i..] == lines;
    while i < |lines|
      invariant 0 <= i <= |lines|
      invariant result + AcceptedColors(EnteredLines(lines[i..])) == palette + AcceptedColors(EnteredLines(lines))
    {
      var input := Trim(lines[i]);
      if |input| == 0 {
        EnteredStop(lines, i);
        break;
      }
      EnteredStep(lines, i);
      var parsed := ParseEntry(input);
      if parsed.Some? {
        result := result + [parsed.value];
      }
      i := i + 1;
    }
    if i == |lines| {
      EnteredStop(lines, i);
    }
  }

  lemma EnteredStop(lines: seq<string>, i: int)
    requires 0 <= i <= |lines| && (i == |lines| || |Trim(lines[i])| == 0)
    ensures AcceptedColors(EnteredLines(lines[i..])) == []
  {
    if i < |lines| {
      assert lines[i..][0] == lines[i];
    }
  }

  lemma EnteredStep(lines: seq<string>, i: int)
    requires 0 <= i < |lines| && |Trim(lines[i])| > 0
    ensures AcceptedColors(EnteredLines(lines[i..]))
      == (match ParseEntry(Trim(lines[i])) case Some(c) => [c] case None => [])
         + AcceptedColors(EnteredLines(lines[i + 1..]))
  {
    assert lines[i..][0] == lines[i];
    assert lines[i..][1..] == lines[i + 1..];
    assert EnteredLines(lines[i..]) == [Trim(lines[i])] + EnteredLines(lines[i + 1..]);
  }

  /** `palette.RemoveAt(index)`. */
  function RemoveAt(palette: seq<Color>, index: int): (r: seq<Color>)
    requires 0 <= index < |palette|
    ensures |r| == |palette| - 1
    ensures forall j :: 0 <= j < index ==> r[j] == palette[j]
    ensures forall j :: index <= j < |r| ==> r[j] == palette[j + 1]
    ensures multiset(r) + multiset{palette[index]} == multiset(palette)
  {
    assert palette == palette[..index] + [palette[index]] + palette[index + 1..];
    palette[..index] + palette[index + 1..]
  }

  /** A 1-based position typed by the user, when it names an element of the list. */
  function ChosenIndex(text: string, count: int): (r: Option<int>)
    ensures r.Some? ==> 0 <= r.value < count
    ensures r.Some? <==> ParseInt32(text).Some? && 1 <= ParseInt32(text).value <= count
  {
    match ParseInt32(text)
    case Some(k) => if 1 <= k <= count then Some(k - 1) else None
    case None => None
  }

  /** `RemoveColor`'s outcome: the shortened list, or `None` when the input names no element (nothing is saved). */
  function RemoveEdit(palette: seq<Color>, indexText: string): (r: Option<seq<Color>>)
    ensures r.Some? <==> ChosenIndex(indexText, |palette|).Some?
    ensures r.Some? ==> r.value == RemoveAt(palette, ChosenIndex(indexText, |palette|).value)
  {
    match ChosenIndex(indexText, |palette|)
    case Some(i) => Some(RemoveAt(palette, i))
    case None => None
  }

  /** `ReplaceColor`'s outcome: one element swapped, or `None` when the index or the colour is invalid. */
  function ReplaceEdit(palette: seq<Color>, indexText: string, hexText: string): (r: Option<seq<Color>>)
    ensures r.Some? <==> ChosenIndex(indexText, |palette|).Some? && ParseEntry(Trim(hexText)).Some?
    ensures r.Some? ==> |r.value| == |palette|
    ensures r.Some? ==> r.value[ChosenIndex(indexText, |palette|).value] == ParseEntry(Trim(hexText)).value
    ensures r.Some? ==>
      (forall j :: 0 <= j < |palette| && j != ChosenIndex(indexText, |palette|).value ==> r.value[j] == palette[j])
  {
    match ChosenIndex(indexText, |palette|)
    case Some(i) =>
      (match ParseEntry(Trim(hexText))
       case Some(c) => Some(palette[i := c])
       case None => None)
    case None => None
  }

  /** The configuration after `CreateCustomPalette` reads `lines`. */
  function CreatedConfig(config: AppConfig, lines: seq<string>): AppConfig
  {
    var created := AcceptedColors(EnteredLines(lines));
    if |created| > 0
    then config.(customPaletteColors := EncodePalette(created), selectedPalette := PredefinedCount)
    else config
  }

  /** What the user types into `EditCustomPalette`: the option, then that option's own input. */
  datatype EditInput = EditInput(choice: string, lines: seq<string>, indexText: string, hexText: string)

  /** The configuration after `EditCustomPalette` with the given input. */
  function EditedConfig(config: AppConfig, edit: EditInput): AppConfig
  {
    var current := DecodePalette(config.customPaletteColors);
    if |current| == 0 then config
    else if edit.choice == "1" then
      config.(customPaletteColors := EncodePalette(current + AcceptedColors(EnteredLines(edit.lines))))
    else if edit.choice == "2" then
      (match RemoveEdit(current, edit.indexText)
       case Some(p) => config.(customPaletteColors := EncodePalette(p))
       case None => config)
    else if edit.choice == "3" then config.(customPaletteColors := [])
    else if edit.choice == "4" then
      (match ReplaceEdit(current, edit.indexText, edit.hexText)
       case Some(p) => config.(customPaletteColors := EncodePalette(p))
       case None => config)
    else config
  }

  /** The palette the renderers use under this configuration. */
  function GetCurrentPalette(store: ConfigStore): (r: Option<seq<Color>>)
    reads store
    ensures r.Some? ==> |r.value| > 0
    ensures r.None? <==> store.config.selectedPalette < 0
  {
    ChoosePalette(store.config.selectedPalette, store.LoadCustomPalette())
  }

  /**
   * `SelectPalette` after the menu returned `sel`: -1 is Escape, 0..7 the
   * predefined palettes, 8 the custom palette, 9 create, 10 edit.
   */
  method SelectPalette(store: ConfigStore, sel: int, createLines: seq<string>, edit: EditInput)
    requires -1 <= sel < PredefinedCount + 3
    modifies store
    ensures sel == -1 ==> store.config == old(store.config)
    ensures 0 <= sel < PredefinedCount ==> store.config == old(store.config).(selectedPalette := sel)
    ensures sel == PredefinedCount && |old(store.LoadCustomPalette())| > 0
      ==> store.config == old(store.config).(selectedPalette := PredefinedCount)
    ensures sel == PredefinedCount && |old(store.LoadCustomPalette())| == 0
      ==> store.config == old(store.config)
    ensures sel == PredefinedCount + 1 ==> store.config == CreatedConfig(old(store.config), createLines)
    ensures sel == PredefinedCount + 2 ==> store.config == EditedConfig(old(store.config), edit)
  {
    if sel == -1 {
      return;
    }
    var customPaletteColors := store.LoadCustomPalette();
    if sel < PredefinedCount {
      store.SetSelectedPalette(sel);
    } else if sel == PredefinedCount {
      if |customPaletteColors| > 0 {
        store.SetSelectedPalette(PredefinedCount);
      }
    } else if sel == PredefinedCount + 1 {
      CreateCustomPalette(store, createLines);
    } else {
      EditCustomPalette(store, edit);
    }
  }

  method CreateCustomPalette(store: ConfigStore, lines: seq<string>)
    modifies store
    ensures store.config == CreatedConfig(old(store.config), lines)
  {
    var newPalette := ReadHexColors([], lines);
    assert newPalette == AcceptedColors(EnteredLines(lines)) by {
      assert [] + AcceptedColors(EnteredLines(lines)) == AcceptedColors(EnteredLines(lines));
    }
    if |newPalette| > 0 {
      store.SaveCustomPalette(newPalette);
      store.SetSelectedPalette(PredefinedCount);
    }
  }

  method EditCustomPalette(store: ConfigStore, edit: EditInput)
    modifies store
    ensures |old(store.LoadCustomPalette())| == 0 ==> store.config == old(store.config)
    ensures |old(store.LoadCustomPalette())| > 0 && edit.choice == "3"
      ==> store.config == old(store.config).(customPaletteColors := [])
    ensures store.config == EditedConfig(old(store.config), edit)
  {
    var currentPalette := store.LoadCustomPalette();
    if |currentPalette| == 0 {
      return;
    }
    if edit.choice == "1" {
      currentPalette := AddMoreColors(store, currentPalette, edit.lines);
    } else if edit.choice == "2" {
      currentPalette := RemoveColor(store, currentPalette, edit.indexText);
    } else if edit.choice == "3" {
      currentPalette := [];
      store.SaveCustomPalette(currentPalette);
    } else if edit.choice == "4" {
      currentPalette := ReplaceColor(store, currentPalette, edit.indexText, edit.hexText);
    }
  }

  /** Appends the accepted entries after the existing colours, then saves. */
  method AddMoreColors(store: ConfigStore, palette: seq<Color>, lines: seq<string>) returns (result: seq<Color>)
    modifies store
    ensures result == palette + AcceptedColors(EnteredLines(lines))
    ensures store.config == old(store.config).(customPaletteColors := EncodePalette(result))
  {
    result := ReadHexColors(palette, lines);
    store.SaveCustomPalette(result);
  }

  /** Removes element `index - 1` and saves, for `index` in 1..Count; any other input changes nothing. */
  method RemoveColor(store: ConfigStore, palette: seq<Color>, indexText: string) returns (result: seq<Color>)
    modifies store
    ensures |palette| > 0 && RemoveEdit(palette, indexText).Some? ==>
      result == RemoveEdit(palette, indexText).value
      && store.config == old(store.config).(customPaletteColors := EncodePalette(result))
    ensures |palette| == 0 || RemoveEdit(palette, indexText).None? ==>
      result == palette && store.config == old(store.config)
  {
    result := palette;
    if |palette| == 0 {
      return;
    }
    var parsed := ParseInt32(indexText);
    if parsed.Some? && parsed.value >= 1 && parsed.value <= |palette| {
      result := RemoveAt(palette, parsed.value - 1);
      store.SaveCustomPalette(result);
    }
  }

  /** Replaces element `index - 1` with the parsed colour and saves; an invalid index or colour changes nothing. */
  method ReplaceColor(store: ConfigStore, palette: seq<Color>, indexText: string, hexText: string)
    returns (result: seq<Color>)
    modifies store
    ensures |palette| > 0 && ReplaceEdit(palette, indexText, hexText).Some? ==>
      result == ReplaceEdit(palette, indexText, hexText).value
      && store.config == old(store.config).(customPaletteColors := EncodePalette(result))
    ensures |palette| == 0 || ReplaceEdit(palette, indexText, hexText).None? ==>
      result == palette && store.config == old(store.config)
  {
    result := palette;
    if |palette| == 0 {
      return;
    }
    var parsed := ParseInt32(indexText);
    if parsed.Some? && parsed.value >= 1 && parsed.value <= |palette| {
      var hex := Trim(hexText);
      if !StartsWith(hex, "#") {
        hex := "#" + hex;
      }
      var newColor := ParseColor(hex);
      if newColor.Some? {
        result := palette[parsed.value - 1 := newColor.value];
        store.SaveCustomPalette(result);
      }
    }
  }
}
