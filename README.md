# SkiaLizer core in Dafny

SkiaLizer is a Windows audio visualizer. It captures the system's audio output, analyses each buffer into a
spectrum, a set of band levels and a beat pulse, and draws one of several SkiaSharp visualizers coloured from a
chosen palette. A console front end picks the visual, the palette, the window size and a few toggles, and keeps
them in a JSON configuration.

This project models the parts of that program that decide values and state, and proves properties about them:

- **The audio analyser.** `AudioAnalysis` covers the `OnDataAvailable` callback of `VisualizerForm`. It models
  the sample queue and its cap, the spectrum smoothing and peak decay, and the band levels. It also covers the
  beat detector, the colour speed, phase and hue, and the reactive snapshot. `AudioAnalysis.Analyzer` is the
  class whose fields the callback updates.
- **Colours and palettes.** `Colors` models `#RRGGBB` formatting and `SKColor.Parse`. `Palettes` and
  `PaletteManager` cover the predefined palettes, the custom-palette editing flows and palette selection.
  `FormHelpers` holds the palette interpolation (`GetPaletteColor`, `Cyclic`) and the 3D projection.
- **Configuration.** `ConfigManager.ConfigStore` models the setters, the defaults and the custom palette's
  string encoding.
- **Console front end.** `ConsoleMenu` covers the menu loop, its key labels and its wrap-around selection.
  `SettingsManager` covers the settings menu. `WindowSizes` covers the window-size presets and their parsing.
  `ConsoleProgram` covers the `Program.cs` colour picker and palette editing.
- **Renderer state.** `Boids`, `Metaballs`, `CirclePacking`, `Starfield`, `Voronoi`, `AudioTerrain` and
  `FractalTree` model each renderer's entity pool and its per-frame update: spawn, cull, motion and wrap, and the
  pool size driven by the audio level. They also cover the derived geometry (Voronoi neighbour edges, the terrain
  rows, the fractal tree's branch recursion).
- **C# conventions.** `Numerics`, `Text`, `RealArith` and `RenderCommon` write out the C# conventions the
  source relies on:
  - the `(int)` cast truncates toward zero;
  - `%` on floats and ints is the truncated remainder;
  - 32-bit wrap-around;
  - `Math.Clamp`;
  - `string.Trim`, `ToLower`, `Split` and `int.TryParse`.

Floating-point values are modelled as reals. Square roots, trigonometry, powers and logarithms are function
parameters with the properties the proofs need. Random numbers are draw streams (`nat -> Draw`). Where a
proved property depends on a draw, a predicate gives the range that the source's `Random.NextDouble`/`Next` call
yields. The fractal tree's branch draws carry no such predicate, because nothing proved about the tree depends
on their values. Console input is a sequence of keys or lines given as a
parameter.

A spectrum bin's peak is not an upper bound of its smoothed value. In the code
(src/Core/VisualizerForm.cs:589-596), a peak whose smoothed value stays the same decays below it
(`AudioAnalysis.PeakCanTrailSmoothed`).

## Model

| member | source | states |
|---|---|---|
| Colors.ParseColor | src/Configuration/ConfigManager.cs:229-237 | `SKColor.Parse` succeeds exactly when the trimmed text, less one leading `#`, is 3, 4, 6 or 8 hex digits; the forms without alpha are opaque |
| Colors.HexChar | src/Configuration/ConfigManager.cs:219 | an `X` format digit is upper-case and reads back as its value |
| Colors.HexPair | src/Configuration/ConfigManager.cs:219 | `X2` gives two hex digits whose value is the byte |
| Colors.ToHex | src/Configuration/ConfigManager.cs:219 | the stored form is `#` followed by six hex digits |
| Colors.ParseToHex | src/Configuration/ConfigManager.cs:219-231 | parsing a stored colour gives back its red, green and blue, made opaque |
| Colors.ToHexOfParsed | src/Configuration/ConfigManager.cs:219-231 | any colour that parsed survives a store and a re-parse as the same opaque colour |
| ConfigManager.EncodePalette | src/Configuration/ConfigManager.cs:214-222 | one `#RRGGBB` string per colour, same length, same order |
| ConfigManager.DecodePalette | src/Configuration/ConfigManager.cs:224-240 | the parseable strings only: never longer than the input, and as long exactly when every string parses |
| ConfigManager.DecodeAppend | src/Configuration/ConfigManager.cs:227-238 | loading works string by string, so it distributes over concatenation |
| ConfigManager.DecodeEncode | src/Configuration/ConfigManager.cs:214-240 | loading right after saving gives the same colours in the same order, made opaque |
| ConfigManager.DecodeAllParsed | src/Configuration/ConfigManager.cs:227-238 | when every string parses, loading is exactly the list of parsed colours |
| ConfigManager.EncodeDecodeEncode | src/Configuration/ConfigManager.cs:214-240 | saving what was loaded from a save changes no stored string |
| ConfigManager.EncodeOpaque | src/Configuration/ConfigManager.cs:219 | the stored form ignores alpha |
| ConfigManager.ConfigStore.constructor | src/Configuration/ConfigManager.cs:14-30 | the configuration starts at the declared defaults (800 x 600, positions -1, no custom colours) |
| ConfigManager.ConfigStore.ResetToDefaults | src/Configuration/ConfigManager.cs:78-90 | the whole configuration goes back to the defaults |
| ConfigManager.ConfigStore.SetTransparencyMode | src/Configuration/ConfigManager.cs:93-101 | only `TransparencyMode` changes, to the value |
| ConfigManager.ConfigStore.SetAlwaysOnTopMode | src/Configuration/ConfigManager.cs:103-111 | only `AlwaysOnTopMode` changes |
| ConfigManager.ConfigStore.SetFullScreenDefault | src/Configuration/ConfigManager.cs:113-121 | only `FullScreenDefault` changes |
| ConfigManager.ConfigStore.SetSelectedWindowWidth | src/Configuration/ConfigManager.cs:123-131 | only `SelectedWindowWidth` changes |
| ConfigManager.ConfigStore.SetSelectedWindowHeight | src/Configuration/ConfigManager.cs:133-141 | only `SelectedWindowHeight` changes |
| ConfigManager.ConfigStore.SetSelectedVisual | src/Configuration/ConfigManager.cs:143-151 | only `SelectedVisual` changes |
| ConfigManager.ConfigStore.SetSelectedPalette | src/Configuration/ConfigManager.cs:153-161 | only `SelectedPalette` changes |
| ConfigManager.ConfigStore.SetAutoStartVisualizer | src/Configuration/ConfigManager.cs:163-171 | only `AutoStartVisualizer` changes |
| ConfigManager.ConfigStore.SetCustomPaletteColors | src/Configuration/ConfigManager.cs:173-181 | only `CustomPaletteColors` changes |
| ConfigManager.ConfigStore.SetToggleRememberPosition | src/Configuration/ConfigManager.cs:183-191 | only `ToggleRememberPosition` changes |
| ConfigManager.ConfigStore.SetWindowPositionX | src/Configuration/ConfigManager.cs:193-201 | only `WindowPositionX` changes |
| ConfigManager.ConfigStore.SetWindowPositionY | src/Configuration/ConfigManager.cs:203-211 | only `WindowPositionY` changes |
| ConfigManager.ConfigStore.SaveCustomPalette | src/Configuration/ConfigManager.cs:214-222 | the loop builds exactly the encoded palette, and nothing but the stored colours changes |
| ConfigManager.ConfigStore.LoadCustomPalette | src/Configuration/ConfigManager.cs:224-240 | never more colours than stored strings |
| Palettes.PredefinedShape | PaletteManager.cs:30-122 | eight named palettes, each with at least six colours |
| Palettes.ChoosePalette | PaletteManager.cs:180-203 | the predefined palette below 8, else the custom one when it has colours, else Rainbow; never empty; a negative index (out of range in the source) is the only failure |
| PaletteManager.ParseEntryIsParseColor | PaletteManager.cs:245-254 | prepending `#` to trimmed input never changes whether or what it parses |
| PaletteManager.EnteredLines | PaletteManager.cs:242-247 | the entries read stop at the first blank line; never more than the lines given |
| PaletteManager.AcceptedColors | PaletteManager.cs:252-261 | the parseable entries in order; never more than the entries |
| PaletteManager.AcceptedAppend | PaletteManager.cs:242-262 | accepting works entry by entry, so it distributes over concatenation |
| PaletteManager.ReadHexColors | PaletteManager.cs:242-262 | the read loop appends exactly the accepted colours of the entered lines to the palette |
| PaletteManager.RemoveAt | PaletteManager.cs:365 | one shorter, elements before kept, elements after shifted down, and the same multiset less the removed colour |
| PaletteManager.ChosenIndex | PaletteManager.cs:363 | a position exactly when the text parses as an `int` between 1 and the count, and then it is in range |
| PaletteManager.RemoveEdit | PaletteManager.cs:351-373 | a removal exactly when the index text is valid, and then it removes that element |
| PaletteManager.ReplaceEdit | PaletteManager.cs:375-409 | a replacement exactly when the index and the colour are valid; same length, the chosen element replaced, the others kept |
| PaletteManager.GetCurrentPalette | PaletteManager.cs:180-203 | never an empty palette; fails only for a negative selection |
| PaletteManager.SelectPalette | PaletteManager.cs:124-178 | Escape changes nothing; a predefined choice only sets the selection; the custom palette is selected only when it has colours; create and edit give their outcome configurations |
| PaletteManager.CreateCustomPalette | PaletteManager.cs:234-271 | stores the accepted colours and selects the custom palette, or changes nothing when none was accepted |
| PaletteManager.EditCustomPalette | PaletteManager.cs:273-321 | an empty custom palette changes nothing; option 3 clears it; every option gives the outcome configuration |
| PaletteManager.AddMoreColors | PaletteManager.cs:323-349 | the palette grows by exactly the accepted colours and is saved |
| PaletteManager.RemoveColor | PaletteManager.cs:351-373 | a valid index removes and saves; any other input changes neither the list nor the configuration |
| PaletteManager.ReplaceColor | PaletteManager.cs:375-409 | a valid index and colour replace and save; otherwise nothing changes |
| ConsoleMenu.GetKeyLabelForIndex | src/UI/ConsoleMenu.cs:88-95 | one character: "1".."9" for items 0..8, "0" for item 9, letter `A + k` for item 10 + k |
| ConsoleMenu.Shortcut | src/UI/ConsoleMenu.cs:45-68 | a shortcut key only ever picks an item of the menu |
| ConsoleMenu.LabelSelectsItem | src/UI/ConsoleMenu.cs:45-68 | for each of the first 36 items, pressing the key its label shows returns that item |
| ConsoleMenu.ShortcutMatchesLabel | src/UI/ConsoleMenu.cs:45-68 | conversely, a shortcut returns only the item whose label is on the key (the number pad sharing the digit labels) |
| ConsoleMenu.StepKeepsRange | src/UI/ConsoleMenu.cs:70-83 | in a non-empty menu a key returns an item or -1, or moves the highlight to an item; Up and Down wrap around |
| ConsoleMenu.DownUndoesUp | src/UI/ConsoleMenu.cs:72-77 | Down after Up puts the highlight back |
| ConsoleMenu.RunMenuRange | src/UI/ConsoleMenu.cs:13-86 | any key sequence in a non-empty menu returns an item or -1, or leaves the highlight on an item; it never crashes |
| ConsoleMenu.EmptyMenu | src/UI/ConsoleMenu.cs:72-80 | an empty menu returns 0, which names no item, on Enter and divides by zero on an arrow key |
| ConsoleMenu.ShowMenu | src/UI/ConsoleMenu.cs:13-86 | the loop's outcome is the key-by-key outcome from the first item, and in a non-empty menu a returned value is an item or -1 |
| SettingsManager.ConfirmCaseInsensitive | src/Configuration/SettingsManager.cs:106-108 | the reset answer is read case-insensitively |
| SettingsManager.ConfirmIgnoresLeadingSpace | src/Configuration/SettingsManager.cs:106-108 | white space before the answer is ignored |
| SettingsManager.EndOfInputCancels | src/Configuration/SettingsManager.cs:106-108 | the end of input cancels the reset |
| SettingsManager.ConfirmOnlyYesLetters | src/Configuration/SettingsManager.cs:106-108 | an answer that confirms the reset holds only white space and the letters y, e and s in either case, so any other character, a non-ASCII capital included, keeps it from confirming |
| SettingsManager.ToggleTwice | src/Configuration/SettingsManager.cs:65-89 | choosing the same toggle twice restores the configuration |
| SettingsManager.LeavingStops | src/Configuration/SettingsManager.cs:61-97 | nothing after Escape or "Back" has any effect |
| SettingsManager.StepKeepsOthers | src/Configuration/SettingsManager.cs:63-99 | one entry other than a confirmed reset keeps the palette, visualizer, position and custom colours |
| SettingsManager.SettingsKeepOthers | src/Configuration/SettingsManager.cs:43-101 | without a confirmed reset, any run of the settings menu keeps those fields |
| SettingsManager.ResetLast | src/Configuration/SettingsManager.cs:93-112 | a confirmed reset as the last action leaves exactly the defaults |
| SettingsManager.ResetSettings | src/Configuration/SettingsManager.cs:103-120 | the defaults when the answer confirms, no change otherwise |
| SettingsManager.SelectWindowSize | src/Configuration/SettingsManager.cs:122-216 | highlights the first preset matching the stored size, and stores the size the choice gives and nothing else |
| SettingsManager.ShowSettings | src/Configuration/SettingsManager.cs:43-101 | the loop's final configuration is the round-by-round outcome |
| WindowSizes.ResolutionOfFormatted | src/Configuration/SettingsManager.cs:218-227 | `"WxH caption"` with decimal W and H in the 32-bit range reads back as (W, H) |
| WindowSizes.SizeTextParses | src/Configuration/SettingsManager.cs:221-225 | two digit runs joined by `x`, then a space and anything, read as the two values |
| WindowSizes.PresetsParse | src/Configuration/SettingsManager.cs:124-167 | every preset entry of the size menu names its own size, so the 800x600 fallback is never taken for a preset |
| WindowSizes.NoSeparatorFallback | src/Configuration/SettingsManager.cs:221-226 | text without an `x` never names a size and reads as 800x600 |
| WindowSizes.PresetParses | src/Configuration/SettingsManager.cs:208-210 | entry `i` reads as preset `i`'s size |
| WindowSizes.ReadPresetEntry | src/Configuration/SettingsManager.cs:173-208 | reading a preset entry gives that preset's size |
| WindowSizes.CurrentPresetIndex | src/Configuration/SettingsManager.cs:169-179 | the first preset whose size is the stored size, or -1 when none has it |
| WindowSizes.CustomSize | src/Configuration/SettingsManager.cs:184-205 | both entries parsed and above zero give the new size; any other input keeps the old one |
| WindowSizes.UnchangedSize | src/Configuration/SettingsManager.cs:182-205 | Escape and an invalid custom entry leave the size as it was |
| ConsoleProgram.PickerStep | Program.cs:615-635 | any key that neither confirms nor cancels keeps every channel in 0..255 and the channel index in 0..2 |
| ConsoleProgram.Navigate | Program.cs:586-643 | a run of navigation keys keeps the picker's state valid |
| ConsoleProgram.FirstExitDecides | Program.cs:586-643 | the first Enter returns the colour the keys before it reached, the first Escape returns nothing, and later keys are never read |
| ConsoleProgram.UpRaisesSelected | Program.cs:617-621 | Up sets only the selected channel, to `min(255, v + 5)` |
| ConsoleProgram.DownLowersSelected | Program.cs:623-627 | Down sets only the selected channel, to `max(0, v - 5)` |
| ConsoleProgram.UpThenDown | Program.cs:617-627 | away from the clamp, Down undoes Up |
| ConsoleProgram.ChannelCycle | Program.cs:629-635 | Left undoes Right, and three Rights come back to the same channel |
| ConsoleProgram.InteractiveColorPicker | Program.cs:581-644 | the loop's outcome is the key-by-key outcome from pure red with the red channel selected |
| ConsoleProgram.GetClosestAnsiColor | Program.cs:646-659 | each console colour is chosen exactly when its own rule holds (White taking precedence over Gray) |
| ConsoleProgram.GreyPreview | Program.cs:646-659 | a grey level previews as Black, DarkGray, Gray or White by brightness alone |
| ConsoleProgram.ReplacementColor | Program.cs:703-724 | method "1" gives the parsed hex line, "2" the picker's colour when Enter ends it, anything else no colour |
| ConsoleProgram.ConsoleReplaceEdit | Program.cs:696-730 | a replacement exactly when the index is valid and a colour was obtained; same length, the chosen element replaced, the others kept |
| ConsoleProgram.HexReplaceAgrees | Program.cs:706-719 | with the hex method the console's edit is the palette editor's replacement |
| ConsoleProgram.ConsoleState.constructor | Program.cs:25-28 | 800x600, Rainbow, an empty custom palette |
| ConsoleProgram.ConsoleState.GetCurrentPalette | Program.cs:749-768 | the predefined palette below 8, else the custom palette when it has colours, else Rainbow; never empty |
| ConsoleProgram.ConsoleState.SelectWindowSize | Program.cs:248-342 | highlights the first matching preset and sets the size the choice gives; the palette state is untouched |
| ConsoleProgram.ConsoleState.RemoveColor | Program.cs:661-682 | the custom palette becomes the removal outcome, or stays as it was for invalid input |
| ConsoleProgram.ConsoleState.ReplaceColor | Program.cs:684-736 | the custom palette becomes the replacement outcome, or stays as it was |
| FormHelpers.ClampF | src/Core/VisualizerForm.cs:126-131 | the result lies in [min, max] when the range is not empty, is the value inside it and `min` below it |
| FormHelpers.BlendChannel | src/Core/VisualizerForm.cs:886-888 | a blended channel lies between the two channels it blends, and is the first at blend 0 |
| FormHelpers.BlendIndices | src/Core/VisualizerForm.cs:871-882 | the two positions are neighbours inside the palette, the blend weight is in [0, 1), the ends of the range pick the first pair and the last entry, and the positions coincide only at the top end |
| FormHelpers.GetPaletteColor | src/Core/VisualizerForm.cs:865-891 | white for an empty palette, the only colour of a one-colour palette, otherwise every channel lies between those of the two neighbouring entries |
| FormHelpers.PaletteEnds | src/Core/VisualizerForm.cs:865-891 | `t <= 0` gives the first colour made opaque, `t >= 1` the last colour unchanged |
| FormHelpers.CyclicPeriod | src/Core/VisualizerForm.cs:893-898 | the cyclic lookup repeats every 360 degrees of non-negative hue |
| FormHelpers.NegativeHueReadsStart | src/Core/VisualizerForm.cs:893-898 | a negative hue (whose C# remainder is not positive) reads the start of the palette |
| FormHelpers.CyclicInRange | src/Core/VisualizerForm.cs:893-898 | a hue in [0, 360) reads the palette at `hue / 360` |
| FormHelpers.ProjectionDepth | src/Core/VisualizerForm.cs:902-904 | the divisor is at least 10, and `z + 100` in front of the near plane |
| FormHelpers.ProjectionBounded | src/Core/VisualizerForm.cs:900-908 | a projected point is no farther from the centre than its offset times `scale / 10`, however near the viewer |
| FormHelpers.NearPlaneClamp | src/Core/VisualizerForm.cs:902-903 | every point behind the near plane projects like the point on it |
| FormHelpers.AxisToCentre | src/Core/VisualizerForm.cs:900-908 | points on the view axis land on the screen centre |
| AudioAnalysis.Capped | src/Core/VisualizerForm.cs:565 | the capped queue holds at most `FftLength * 4` samples, is the queue itself when that is not exceeded, and is always its newest suffix |
| AudioAnalysis.DropOldest | src/Core/VisualizerForm.cs:565 | dropping the oldest sample of an over-full queue does not change what the cap keeps |
| AudioAnalysis.CappedAppend | src/Core/VisualizerForm.cs:564-565 | capping after every append keeps the same samples as appending everything and capping once |
| AudioAnalysis.EveryNth | src/Core/VisualizerForm.cs:561-563 | the left-channel samples are no more than the samples and start with the first one |
| AudioAnalysis.EveryNthAt | src/Core/VisualizerForm.cs:561-563 | the j-th queued sample is interleaved sample `j * channels` |
| AudioAnalysis.MonoTakesAll | src/Core/VisualizerForm.cs:561-563 | with one channel every sample is queued |
| AudioAnalysis.Window | src/Core/VisualizerForm.cs:569-574 | the FFT reads exactly `FftLength` samples: the newest ones, or the queue followed by zeros when fewer are queued |
| AudioAnalysis.SpectraNonNegative | src/Core/VisualizerForm.cs:586-597 | non-negative magnitudes keep the smoothed and the peak bins non-negative |
| AudioAnalysis.PeakTracksSmoothed | src/Core/VisualizerForm.cs:589-596 | a peak bin never falls below 99% of the new smoothed bin |
| AudioAnalysis.PeakCanTrailSmoothed | src/Core/VisualizerForm.cs:586-597 | a peak bin is not an upper bound of the smoothed bin: an unchanged smoothed value lets the peak decay below it |
| AudioAnalysis.NextGain | src/Core/VisualizerForm.cs:600-608 | when the loudest bin is above `Epsilon` the gain lands in [0.5, 500]; otherwise it is unchanged |
| AudioAnalysis.GainBounded | src/Core/VisualizerForm.cs:600-608 | starting inside [0.5, 500], the gain stays there over any sequence of frames |
| AudioAnalysis.BandLevel | src/Core/VisualizerForm.cs:623-640 | a band level is at most 1, and not negative for non-negative bins |
| AudioAnalysis.LowCount | src/Core/VisualizerForm.cs:628 | the bass band has at least one bin and no more bins than the spectrum |
| AudioAnalysis.HighStart | src/Core/VisualizerForm.cs:636 | the treble band starts inside the spectrum |
| AudioAnalysis.HighCount | src/Core/VisualizerForm.cs:637 | the treble average never divides by zero |
| AudioAnalysis.Centroid | src/Core/VisualizerForm.cs:666 | the normalised centroid of non-negative bins lies in [0, 1], and is 0.5 for a spectrum without energy |
| AudioAnalysis.CentroidBound | src/Core/VisualizerForm.cs:612-622 | the weighted sum over the total, divided by the bin count, lies in [0, 1] for non-negative bins |
| AudioAnalysis.StepInRange | src/Core/VisualizerForm.cs:610-671 | one frame keeps every level in [0, 1], the beat pulse in [0, 1], the speed non-negative and the hue in [0, 360) |
| AudioAnalysis.SilenceGate | src/Core/VisualizerForm.cs:644-645 | a frame is silent exactly when the smoothed overall level and the bass level are both below 0.02 |
| AudioAnalysis.BeatExactlyOnRise | src/Core/VisualizerForm.cs:648-656 | the beat pulse becomes 1 exactly when the frame is not silent and the bass rose by more than 0.08 over its running average |
| AudioAnalysis.StillFreezes | src/Core/VisualizerForm.cs:661-670 | the speed is either 0 or at least 0.001, and at 0 the phase and the hue base do not move |
| AudioAnalysis.SilenceSlows | src/Core/VisualizerForm.cs:660-661 | in a silent frame the speed keeps at most 70% of its value |
| AudioAnalysis.Trimmed | src/Core/VisualizerForm.cs:739 | a pipe keeps at most 400 segments, its newest ones, and is untouched below that |
| AudioAnalysis.SegmentColor | src/Core/VisualizerForm.cs:713-715 | the segment saturation and value lie in [0, 100] |
| AudioAnalysis.SpectrumSums | src/Core/VisualizerForm.cs:612-622 | the loop's running sums are the sum and the index-weighted sum of the whole spectrum |
| AudioAnalysis.RangeSum | src/Core/VisualizerForm.cs:630 | the loop's running sum is the sum of the bins in the range |
| AudioAnalysis.BandLevels | src/Core/VisualizerForm.cs:612-641 | the measurements computed in place agree with their definitions on the spectrum's contents |
| AudioAnalysis.VisitPipe | src/Core/VisualizerForm.cs:693-739 | the visited pipe gains the segment from its position to the reflected next position and is trimmed; other pipes are untouched; at most one pipe, of one segment, is added, and none when eight exist |
| AudioAnalysis.PipeStep | src/Core/VisualizerForm.cs:690-740 | a step visits every pipe, including those split off during it, so afterwards every pipe has a segment; the lists stay consistent and capped, never shrink, and do not grow once eight pipes exist |
| AudioAnalysis.DropWhileFull | src/Core/VisualizerForm.cs:565 | the dequeue loop leaves exactly the capped queue |
| AudioAnalysis.EnqueueStep | src/Core/VisualizerForm.cs:561-566 | one turn of the enqueue loop moves one sample from the rest to the taken prefix without changing what ends up queued |
| AudioAnalysis.EnqueueLeft | src/Core/VisualizerForm.cs:559-566 | the queue after the loop is the capped old queue followed by the left-channel samples |
| AudioAnalysis.Analyzer.constructor | src/Core/VisualizerForm.cs:133-269 | the initial state is valid: empty queue, gain 10, speed 1, silent, one empty pipe |
| AudioAnalysis.Analyzer.EnqueueSamples | src/Core/VisualizerForm.cs:559-566 | the queue becomes the capped old queue plus the left-channel samples; nothing else changes |
| AudioAnalysis.Analyzer.FillFftBuffer | src/Core/VisualizerForm.cs:569-575 | every FFT input is the window sample times its Hamming coefficient, with a zero imaginary part |
| AudioAnalysis.Analyzer.UpdateSpectra | src/Core/VisualizerForm.cs:586-597 | every smoothed bin is blended 80/20 with the new magnitude and every peak bin follows it up or decays by 1% |
| AudioAnalysis.Analyzer.UpdateGain | src/Core/VisualizerForm.cs:600-608 | the gain becomes `NextGain` of the loudest smoothed bin; nothing else changes |
| AudioAnalysis.Analyzer.UpdateLevels | src/Core/VisualizerForm.cs:610-671 | the scalar state becomes one analysis step over the smoothed spectrum |
| AudioAnalysis.Analyzer.Store | src/Core/VisualizerForm.cs:625-669 | the scalar fields take the computed values and nothing else changes |
| AudioAnalysis.Analyzer.PublishSpectrum | src/Core/VisualizerForm.cs:673-676 | the renderers' spectrum becomes a copy of the smoothed spectrum |
| AudioAnalysis.Analyzer.GrowPipes | src/Core/VisualizerForm.cs:681-750 | the pipes stay consistent and capped, never shrink, never pass eight by splitting, and are all non-empty afterwards; an empty set is reseeded |
| AudioAnalysis.Analyzer.AnalyzeFrame | src/Core/VisualizerForm.cs:568-676 | the analysis of one frame keeps the analyser valid: the FFT input is the windowed queue, each bin is blended 0.8/0.2 with its peak raised or decayed, the gain follows the new maximum, the levels step and the published copy equals the smoothed spectrum |
| AudioAnalysis.Analyzer.ProcessSamples | src/Core/VisualizerForm.cs:558-750 | a buffer with samples queues every `channels`-th one under the cap, fills the FFT input from the new queue, blends each bin and updates its peak, steps the gain and levels, publishes the spectrum, counts the frame and grows the pipes (at least one, never fewer, no growth at eight, all non-empty when there were any) |
| AudioAnalysis.Analyzer.OnDataAvailable | src/Core/VisualizerForm.cs:554-751 | an empty buffer leaves the analyser and all its arrays unchanged; otherwise the queue, the FFT input, the per-bin blend and peak rule, the gain, the levels, the published copy, the frame count and the pipe growth are as `ProcessSamples` states them |
| AudioAnalysis.Analyzer.NextFrame | src/Core/VisualizerForm.cs:680-750 | the frame count rises by one, the analysis state is untouched, and the pipes keep the growth guarantees of `GrowPipes` |
| AudioAnalysis.Analyzer.SpectraStayNonNegative | src/Core/VisualizerForm.cs:586-597 | after the spectra update every smoothed and peak bin is still non-negative |
| Boids.Sensitivity | vf.Boids.cs:12-13 | the sensitivity is at most 1.5, and not negative for levels in range |
| Boids.Baseline | vf.Boids.cs:16-17 | the pool size is at most 900, at least 120, and at most 570 for a sensitivity in [0, 1.5] |
| Boids.BurstSize | vf.Boids.cs:22 | a beat burst spawns between 30 and 120 particles |
| Boids.Spawned | vf.Boids.cs:100-127 | a spawned particle has `MaxLife` 180, a life in [120, 300), a size in [0.8, 2.4), a position within 30 pixels of the centre and a hue in [0, 360) |
| Boids.Burst | vf.Boids.cs:100-114 | a burst holds exactly `count` particles |
| Boids.BurstSettled | vf.Boids.cs:100-114 | every particle of a burst is alive, within its lifetime and with its hue in range |
| Boids.MaintainPool | vf.Boids.cs:27-34 | the pool ends with exactly `baseline` particles: a short pool keeps its particles in front of the new ones, a long one keeps its newest `baseline` |
| Boids.MaintainSettled | vf.Boids.cs:27-34 | maintaining a healthy pool keeps it healthy |
| Boids.ClampSpeedBound | vf.Boids.cs:56-58 | after the clamp the speed is at most `maxSpeed`, and a particle already slow enough keeps its velocity |
| Boids.StepParticleKeeps | vf.Boids.cs:42-78 | an update loses exactly one life (keeping the size) until the life runs out, then respawns with at least 120; the particle stays healthy, within 20 pixels of the screen and with its hue in [0, 360) |
| Boids.StepAll | vf.Boids.cs:40-79 | the update keeps the pool's length |
| Boids.StepAllSettled | vf.Boids.cs:40-79 | the update loop keeps every particle healthy and puts it inside the wrap margin |
| Boids.FrameKeepsPool | vf.Boids.cs:9-79 | a frame ends with exactly `Baseline(sens)` particles, all healthy, with hues in range and inside the wrap margin |
| Boids.SpawnConfettiBurst | vf.Boids.cs:97-115 | the loop appends exactly the burst's particles, in spawn order, after the old pool |
| Boids.UpdateParticles | vf.Boids.cs:40-79 | the in-place loop replaces each particle by its stepped copy |
| Boids.Flock.constructor | src/Core/VisualizerForm.cs:167 | the form starts with no particles |
| Boids.Flock.DrawBoids | vf.Boids.cs:9-79 | the particle list becomes the frame's burst, maintenance and update of the old list |
| Metaballs.Glow | vf.Metaballs.cs:12-13 | the glow factor is at most 1.5, and not negative for levels in range |
| Metaballs.Target | vf.Metaballs.cs:16-18 | the pool size lies in [10, 60], and in [14, 59] for a glow in [0, 1.5] |
| Metaballs.NewBall | vf.Metaballs.cs:21-27 | a new ball sits at its drawn pixel, with a radius in [14, 32) and each velocity component in [-0.9, 0.9) |
| Metaballs.NewBalls | vf.Metaballs.cs:19-28 | exactly `count` balls are added |
| Metaballs.Adjusted | vf.Metaballs.cs:19-29 | the pool ends with exactly `target` balls: a short pool keeps its balls in front of the new ones, a long one keeps its newest `target` |
| Metaballs.NewBallsFresh | vf.Metaballs.cs:21-27 | every added ball has a radius in [14, 32) and a bounded drift |
| Metaballs.Move | vf.Metaballs.cs:45-57 | a moved ball lands within 60 pixels of the screen and keeps its radius and hue |
| Metaballs.AlphaBase | vf.Metaballs.cs:68-69 | the glow alpha lies in [70, 220] |
| Metaballs.DrawRadius | vf.Metaballs.cs:77 | the drawn radius is at most a fifth of the larger screen side, and at least 10 when that fifth allows it |
| Metaballs.MoveAll | vf.Metaballs.cs:43-58 | the motion keeps the pool's length |
| Metaballs.FrameKeepsBalls | vf.Metaballs.cs:9-58 | a frame leaves exactly `Target(glow)` balls, each with a radius in [14, 32) and inside the wrap margin |
| Metaballs.Metaballs.constructor | src/Core/VisualizerForm.cs:166 | the form starts with no balls |
| Metaballs.Metaballs.DrawMetaballs | vf.Metaballs.cs:9-58 | the ball list becomes the frame's adjusted and moved list |
| Metaballs.AddWhileShort | vf.Metaballs.cs:19-28 | the add loop appends exactly the missing balls in order, and leaves a full pool unchanged |
| Metaballs.MoveBalls | vf.Metaballs.cs:43-58 | the in-place loop replaces each ball by its moved copy |
| CirclePacking.Sensitivity | src/Visualizers/vf.CirclePacking.cs:11-12 | the sensitivity is at most 1.5, and not negative for levels in range |
| CirclePacking.Bands | src/Visualizers/vf.CirclePacking.cs:14 | the circle count is 64 or the spectrum length, whichever is smaller |
| CirclePacking.NewCircle | src/Visualizers/vf.CirclePacking.cs:17-33 | a new circle has radius 6, life and maximum life 180, age 0, is not arrived, and has a minimum age in [30, 120) and a pop bias in [0.2, 1) |
| CirclePacking.Grown | src/Visualizers/vf.CirclePacking.cs:15-34 | the pool grows to `bands` circles when short, never shrinks, and keeps its circles in front |
| CirclePacking.PopThresholds | src/Visualizers/vf.CirclePacking.cs:119-125 | with a pop bias in [0.2, 1) an audio factor above 1.08 always pops and one at most 0 never does, whatever the roll |
| CirclePacking.Respawn | src/Visualizers/vf.CirclePacking.cs:138-158 | a respawned circle is not arrived, has age 0, alpha 220, a life in [180, 420) equal to its maximum, a radius in [8, 22), a minimum age in [30, 120) and a pop bias in [0.2, 1); colour and target are kept |
| CirclePacking.Steer | src/Visualizers/vf.CirclePacking.cs:52-68 | a circle arrives once within 2 units of its destination and stays arrived; it lands within 30 pixels of the screen; life, age and radius are untouched |
| CirclePacking.StepCircleFacts | src/Visualizers/vf.CirclePacking.cs:41-83 | the alpha is at least 40; the target is `10 + energy * 260 * bump`, where the bump adds 1.2 when an arrived circle would pop and 0.4 per unit of beat (up to 1), whether or not the circle respawns; the age is 0 exactly when the circle burnt out or popped once arrived and old enough; otherwise the life drops by the burn, the radius moves 14% toward that target and an arrived circle stays arrived |
| CirclePacking.StepAll | src/Visualizers/vf.CirclePacking.cs:39-84 | the update keeps the pool's length |
| CirclePacking.PushApart | src/Visualizers/vf.CirclePacking.cs:93-104 | the separation of one pair moves the two centres and nothing else |
| CirclePacking.Separate | src/Visualizers/vf.CirclePacking.cs:86-107 | the separation pass changes centres only, and keeps the pool's length |
| CirclePacking.GrowPool | src/Visualizers/vf.CirclePacking.cs:15-34 | the add loop produces exactly the grown pool |
| CirclePacking.UpdateCircles | src/Visualizers/vf.CirclePacking.cs:39-84 | the in-place loop replaces each circle by its updated copy |
| CirclePacking.Packing.constructor | src/Core/VisualizerForm.cs:183 | the form starts with no circles |
| CirclePacking.Packing.DrawCirclePacking | src/Visualizers/vf.CirclePacking.cs:9-107 | the pool grows to `min(64, len)` and never shrinks, and apart from centres it is the updated grown pool |
| Starfield.NewStar | src/Visualizers/vf.Starfield.cs:13-19 | a new star lies in [-200, 200) x [-200, 200) x [0, 400) with a speed in [0.5, 2) |
| Starfield.Grown | src/Visualizers/vf.Starfield.cs:10-20 | the pool grows to 800 stars when short, is never trimmed, and keeps its stars in front |
| Starfield.Loudness | src/Visualizers/vf.Starfield.cs:23 | the loudness of levels in range lies in [0, 1.5] |
| Starfield.SmoothSpeedInRange | src/Visualizers/vf.Starfield.cs:23-25 | starting in [1, 13] the smoothed speed stays there, and moves toward its target `1 + 8 loud` without passing it |
| Starfield.Stereo | src/Visualizers/vf.Starfield.cs:27-30 | the stereo balance lies in [-1, 1], and is 0 without a full left/right pair |
| Starfield.ComputeStereo | src/Visualizers/vf.Starfield.cs:27-30 | the pairwise loop computes exactly the clamped mean left-minus-right difference |
| Starfield.StepStar | src/Visualizers/vf.Starfield.cs:38-48 | a star moves forward by `speed * smooth` and sideways with the balance; one passing z = 10 is reset to z = 400 inside [-200, 200) x [-200, 200); speed and hue are kept; no star ends nearer than z = 10 |
| Starfield.StepAll | src/Visualizers/vf.Starfield.cs:36-48 | the update keeps the pool's length |
| Starfield.FrameStarsBeyondNearPlane | src/Visualizers/vf.Starfield.cs:10-48 | after a frame the pool holds at least 800 stars, none nearer than z = 10 |
| Starfield.StarAlpha | src/Visualizers/vf.Starfield.cs:52 | the star alpha lies in [30, 255] |
| Starfield.StrokeWidthIsOne | src/Visualizers/vf.Starfield.cs:51-57 | the stroke width is always exactly 1, because the depth is at least 10 |
| Starfield.QuotientAtMostOne | src/Visualizers/vf.Starfield.cs:57 | `6 / depth` is at most 1 for a depth of at least 10 |
| Starfield.Stars.constructor | src/Core/VisualizerForm.cs:164-184 | the form starts with no stars and a smoothed speed of 1 |
| Starfield.Stars.DrawStarfield | src/Visualizers/vf.Starfield.cs:8-48 | the smoothed speed takes one blend step and the stars become the grown pool stepped with the new speed and the queue's balance |
| Voronoi.NewSite | vf.Voronoi.cs:14 | a new site from in-range draws lies on the screen |
| Voronoi.ScaleOrZero | vf.Voronoi.cs:14 | a unit roll times a non-negative extent lies in [0, extent] |
| Voronoi.Grown | vf.Voronoi.cs:11-15 | the list grows to 64 sites when short, is never trimmed, and keeps its sites in front |
| Voronoi.GrownOnScreen | vf.Voronoi.cs:11-15 | growing a list of on-screen sites keeps every site on screen |
| Voronoi.Energy | vf.Voronoi.cs:22-23 | a band's energy is at most 1.5, and not negative for a non-negative spectrum |
| Voronoi.JitterScale | vf.Voronoi.cs:24 | the jitter magnitude lies in [2, 20] for energies and beats in range |
| Voronoi.Offset | vf.Voronoi.cs:24 | one jitter component is at most the magnitude either way |
| Voronoi.WrapOnce | vf.Voronoi.cs:26-27 | the single correction leaves an on-screen coordinate alone, adds the extent to one up to one extent below 0, and subtracts it from one up to one extent above |
| Voronoi.WrapOnceInRange | vf.Voronoi.cs:25-27 | an on-screen coordinate moved by at most the extent is brought back onto the screen |
| Voronoi.JitteredOnScreen | vf.Voronoi.cs:24-28 | a site on screen stays on screen when the jitter magnitude is within the width and the height |
| Voronoi.JitterAll | vf.Voronoi.cs:20-29 | the jitter keeps the list's length |
| Voronoi.JitterAllOnScreen | vf.Voronoi.cs:20-29 | with a non-negative spectrum, a beat in [0, 1] and a screen of at least 20 pixels each way, every site stays on screen |
| Voronoi.SqDist | vf.Voronoi.cs:41 | a squared distance is never negative |
| Voronoi.Indices | vf.Voronoi.cs:38-43 | the site indices of a list, one per entry |
| Voronoi.CandidatesGenuine | vf.Voronoi.cs:38-43 | every candidate names another site and carries its squared distance |
| Voronoi.CandidatesOnce | vf.Voronoi.cs:38-43 | the candidates name every other site exactly once, and never the site itself |
| Voronoi.Insert | vf.Voronoi.cs:44 | inserting adds one entry |
| Voronoi.InsertAdds | vf.Voronoi.cs:44 | inserting adds exactly the new entry and loses none |
| Voronoi.InsertSorted | vf.Voronoi.cs:44 | inserting into a list sorted by distance keeps it sorted |
| Voronoi.SortByDistance | vf.Voronoi.cs:44 | sorting keeps the length |
| Voronoi.SortByDistanceCorrect | vf.Voronoi.cs:44 | the sorted list is sorted by ascending distance and is a permutation of the list |
| Voronoi.NeighbourListExact | vf.Voronoi.cs:38-44 | a site's sorted neighbour list has one entry per other site, is sorted, and every entry is genuine |
| Voronoi.PermutationGenuine | vf.Voronoi.cs:44 | rearranging genuine entries keeps them genuine |
| Voronoi.IndicesCount | vf.Voronoi.cs:39-43 | there are `Count - 1` candidates |
| Voronoi.CountCandidates | vf.Voronoi.cs:39-43 | the candidates below `n` number `n - 1` when the site itself is below `n`, otherwise `n` |
| Voronoi.IndicesOfPermutation | vf.Voronoi.cs:44 | a permutation names the same sites |
| Voronoi.IndicesRemove | vf.Voronoi.cs:44 | removing an entry removes its site index once |
| Voronoi.InIndices | vf.Voronoi.cs:44 | a counted site index belongs to some entry |
| Voronoi.EdgesAreNearest | vf.Voronoi.cs:31-52 | each site is joined to exactly `min(3, Count - 1)` other sites, and every site not joined is at least as far as each joined one |
| Voronoi.Sites.constructor | src/Core/VisualizerForm.cs:185 | the form starts with no sites |
| Voronoi.Sites.DrawVoronoi | vf.Voronoi.cs:9-53 | the sites become the grown list jittered in place, and each site's edges are its nearest neighbours by squared distance |
| Voronoi.GrowSites | vf.Voronoi.cs:11-15 | the add loop produces exactly the grown list |
| Voronoi.AllEdges | vf.Voronoi.cs:35-53 | the drawing loop picks each site's edges in site order |
| Voronoi.JitterSites | vf.Voronoi.cs:20-29 | the in-place loop replaces each site by its jittered copy |
| AudioTerrain.Transformed | vf.AudioTerrain.cs:15-19 | the log-scaled spectrum has one value per bin |
| AudioTerrain.TransformSpectrum | vf.AudioTerrain.cs:15-19 | the in-place loop log-scales every bin of the local copy |
| AudioTerrain.HeightScale | vf.AudioTerrain.cs:26 | the height scale is at least 0.6 for non-negative level and beat |
| AudioTerrain.ColumnPosition | vf.AudioTerrain.cs:30-32 | the unclamped bin position is not negative, 0 for the first column and the top bin for the last |
| AudioTerrain.ColumnIndex | vf.AudioTerrain.cs:30-33 | the bin a column reads lies in the spectrum; the first column reads bin 0 and the last the top bin |
| AudioTerrain.ColumnIndexMonotone | vf.AudioTerrain.cs:30-33 | columns further right read bins at least as high |
| AudioTerrain.ColumnPositionMonotone | vf.AudioTerrain.cs:30-32 | the squared column fraction grows with the column |
| AudioTerrain.TruncMonotone | vf.AudioTerrain.cs:32 | truncation of non-negative values keeps their order |
| AudioTerrain.SquareMonotone | vf.AudioTerrain.cs:31 | squaring non-negative values keeps their order |
| AudioTerrain.ScaleMonotone | vf.AudioTerrain.cs:32 | scaling by a non-negative factor keeps order |
| AudioTerrain.ColumnHeights | vf.AudioTerrain.cs:28-36 | the front row has one height per terrain column |
| AudioTerrain.SmoothedUpTo | vf.AudioTerrain.cs:37-40 | a partial smoothing pass keeps the row's length |
| AudioTerrain.Smoothed | vf.AudioTerrain.cs:37-40 | the smoothing pass keeps the row's length |
| AudioTerrain.SmoothedUpToShape | vf.AudioTerrain.cs:37-40 | part way through the pass, the first column and the columns not yet reached are untouched and every smoothed column obeys the in-place recurrence |
| AudioTerrain.SmoothedRecurrence | vf.AudioTerrain.cs:37-40 | the smoothed row keeps both end columns, and each inner column is a quarter of the smoothed left neighbour, twice itself and the original right neighbour |
| AudioTerrain.SmoothedBounds | vf.AudioTerrain.cs:37-40 | smoothing never leaves the range of the row |
| AudioTerrain.SmoothedPrefixBounds | vf.AudioTerrain.cs:37-40 | each smoothed column stays within the range of the row |
| AudioTerrain.Decayed | vf.AudioTerrain.cs:44 | a decayed row keeps its length |
| AudioTerrain.RowOf | vf.AudioTerrain.cs:35-44 | a grid row has one value per column |
| AudioTerrain.WrapInt32 | vf.AudioTerrain.cs:124 | 32-bit `int` arithmetic yields the value in [-2^31, 2^31) congruent to the exact result modulo 2^32 |
| AudioTerrain.MaskLow31 | vf.AudioTerrain.cs:124 | the mask yields a value in [0, 2^31) and leaves non-negative values alone |
| AudioTerrain.NoiseHashLowBits | vf.AudioTerrain.cs:124 | the masked hash is the exact value modulo 2^31, so it is never negative |
| AudioTerrain.Low31 | vf.AudioTerrain.cs:124 | adding multiples of 2^31 does not change the low 31 bits |
| AudioTerrain.MaskNeededAtTwo | vf.AudioTerrain.cs:124 | without the mask the hash already overflows to a negative value at `i = 2`, which the mask turns back into the low 31 bits |
| AudioTerrain.NoiseR1 | vf.AudioTerrain.cs:125 | the first noise roll lies in [0, 1) |
| AudioTerrain.NoiseR2 | vf.AudioTerrain.cs:126 | the second noise roll lies in [0, 1) |
| AudioTerrain.SpikeNoise | vf.AudioTerrain.cs:121-134 | a spike lies in [0, 1.4] |
| AudioTerrain.SkylineY | vf.AudioTerrain.cs:96-105 | a skyline height is never below the baseline, and for a non-negative amplitude it is the unclamped value, at most `1.4 * amp` above the baseline |
| AudioTerrain.SkylinePoint | vf.AudioTerrain.cs:95-106 | a skyline point is never below the baseline `0.38 * height` |
| AudioTerrain.Skyline | vf.AudioTerrain.cs:94-107 | the skyline has 64 points |
| AudioTerrain.SkylineAboveBaseline | vf.AudioTerrain.cs:86-107 | no skyline point lies below the baseline, and the points run from x = 0 to x = width |
| AudioTerrain.SkyboxMountains | vf.AudioTerrain.cs:94-107 | the point loop produces exactly the skyline |
| AudioTerrain.Terrain.constructor | src/Core/VisualizerForm.cs:177-179 | the grid is 64 by 64 and starts at zero |
| AudioTerrain.Terrain.DrawAudioTerrain | vf.AudioTerrain.cs:10-53 | the front row becomes the smoothed column heights of the log-scaled spectrum, every other row the decayed old row in front of it, and the skyline is computed from the mean level |
| AudioTerrain.Terrain.WriteColumns | vf.AudioTerrain.cs:28-36 | the column loop writes exactly the column heights into the front row and leaves the other rows alone |
| AudioTerrain.Terrain.SmoothFrontRow | vf.AudioTerrain.cs:37-40 | the in-place loop leaves the front row smoothed and the other rows alone |
| AudioTerrain.Terrain.OtherRowsKept | vf.AudioTerrain.cs:28-40 | rows whose every height is unchanged are unchanged as rows |
| AudioTerrain.Terrain.Scroll | vf.AudioTerrain.cs:42-44 | the scroll makes every row behind the front one the decayed old row in front of it and keeps the front row |
| AudioTerrain.Terrain.CopyRowDown | vf.AudioTerrain.cs:43-44 | the inner loop makes row `r` the decayed old row `r - 1` and touches no other row |
| FractalTree.DynDepth | vf.FractalTree.cs:11-12 | the tree depth lies in [6, 16], and is at least 7 for non-negative level and beat |
| FractalTree.SwayAmplitude | vf.FractalTree.cs:16 | a silent frame does not sway; otherwise levels in range give an amplitude in [0, 25] |
| FractalTree.Segment | vf.FractalTree.cs:25-43 | a segment starts at its call's point with its depth and intensity, has saturation and value in [0, 100] and a stroke width of at least 1 |
| FractalTree.Child | vf.FractalTree.cs:49-57 | the two regular children are one level shallower and the extra child two, each extends the draw path by its choice, and intensity only decays |
| FractalTree.SegmentCount | vf.FractalTree.cs:23-58 | a call with depth left draws its segment plus the segments of both children, and of the extra child when it is taken |
| FractalTree.Pow2 | vf.FractalTree.cs:49-50 | a power of two is at least 1 |
| FractalTree.BranchesInRange | vf.FractalTree.cs:21-58 | every drawn segment has saturation and value in [0, 100], a stroke of at least 1, a depth between 1 and the call's depth, and an intensity between 0 and the call's |
| FractalTree.BinaryWhenNoExtra | vf.FractalTree.cs:49-54 | when silent, or below depth 3, the tree is a full binary tree of `2^depth - 1` segments |
| FractalTree.AtLeastBinary | vf.FractalTree.cs:49-58 | the tree has at least `2^depth - 1` segments, and strictly more when the top call takes its extra branch |
| FractalTree.Trunk | vf.FractalTree.cs:15-18 | the trunk call starts on the centre line, above the translated origin exactly when the height is not negative, with the tree depth, the level as intensity, branch id 0 and an angle within 25 degrees of straight up |
| FractalTree.Tree.constructor | src/Core/VisualizerForm.cs:153 | the stored depth starts at 10 |
| FractalTree.Tree.DrawFractalTree | vf.FractalTree.cs:8-19 | the stored depth becomes the frame's depth and the segments drawn are exactly the trunk call's tree |
| Numerics.Trunc | src/Core/VisualizerForm.cs:686 | `(int)x` truncates toward zero: the result is the integer part, never farther from zero than `x` |
| Numerics.Percent | src/Core/VisualizerForm.cs:714-715 | the clamped percentage lies in [0, 100] and is the value itself inside that range |
| Numerics.FloorInt | src/Core/VisualizerForm.cs:875 | `(int)Math.Floor(x)` is the largest integer not above `x` |
| Numerics.FMod | src/Core/VisualizerForm.cs:669 | the float remainder has the sign of `x`, is smaller than the divisor in magnitude, and leaves values in [0, m) alone |
| Numerics.TruncRemainder | src/Core/VisualizerForm.cs:669 | `x - m * trunc(x / m)` lies in [0, m) for non-negative `x` and in (-m, 0] otherwise |
| Numerics.FModPeriodic | src/Core/VisualizerForm.cs:893-898 | for non-negative `x`, adding the divisor does not change the remainder |
| Numerics.IntRem | src/UI/ConsoleMenu.cs:73-76 | the C# `int` remainder has the sign of the dividend and is the mathematical remainder for non-negative operands |
| Numerics.SumNonNegative | src/Core/VisualizerForm.cs:612-622 | the sum of non-negative bins is not negative |
| Numerics.WeightedSumBounds | src/Core/VisualizerForm.cs:612-622 | the index-weighted sum of non-negative bins lies between 0 and the bin count times the sum |
| Numerics.SeqMax | src/Core/VisualizerForm.cs:600 | `Max()` of a non-empty spectrum is one of its bins and no bin exceeds it |
| Text.TrimStartSuffix | PaletteManager.cs:245 | trimming the start leaves a suffix that does not begin with white space |
| Text.TrimEndPrefix | PaletteManager.cs:245 | trimming the end leaves a prefix that does not end with white space |
| Text.TrimmedEdges | PaletteManager.cs:245 | every character of the trimmed text comes from the text, and a non-empty result begins and ends with non-white space |
| Text.TrimIdempotent | PaletteManager.cs:245 | trimming twice is trimming once |
| Text.TrimmedAt | src/Configuration/SettingsManager.cs:106 | the trimmed text is a contiguous piece of the input with nothing but white space before and after it |
| Text.TrimNoWhiteSpace | PaletteManager.cs:245 | text without white space is its own trim |
| Text.ToLowerChar | src/Configuration/SettingsManager.cs:106 | an ASCII capital becomes its small letter and every other character is kept |
| Text.ToLowerAt | src/Configuration/SettingsManager.cs:106 | lower-casing works character by character and keeps the length |
| Text.Split | src/Configuration/SettingsManager.cs:221 | splitting yields at least one piece and no piece holds the separator |
| Text.JoinSplit | src/Configuration/SettingsManager.cs:221 | joining the pieces with the separator gives back the text |
| Text.SplitAt | src/Configuration/SettingsManager.cs:221 | a separator-free prefix before the first separator is the first piece |
| Text.FirstPieceOf | src/Configuration/SettingsManager.cs:221 | the first piece of `a + c + b` is `a` when `a` has no separator |
| Text.SplitPair | src/Configuration/SettingsManager.cs:221-222 | `a + c + b` with no separator in `a` or `b` splits into exactly `[a, b]` |
| Text.DigitChar | src/Configuration/SettingsManager.cs:143 | the digit character of a value in [0, 9] reads back as that value |
| Text.Decimal | src/Configuration/SettingsManager.cs:143 | the decimal text of a number is non-empty and all digits |
| Text.DigitsOfDecimal | src/Configuration/SettingsManager.cs:143 | the decimal text of a number reads back as that number |
| Text.ParseInt32 | src/Configuration/SettingsManager.cs:187 | a successful `int.TryParse` yields a value in the 32-bit range |
| Text.ParseDecimal | src/Configuration/SettingsManager.cs:222 | the decimal text of a 32-bit value parses back to it |
| Text.ParseNegativeDecimal | src/Configuration/SettingsManager.cs:187 | a minus sign before the decimal text of a magnitude up to 2^31 parses to the negative value |
| Text.NegativeDigits | src/Configuration/SettingsManager.cs:187 | a minus sign and digits read as the negated value when it fits |
| Text.UnsignedDigits | src/Configuration/SettingsManager.cs:187 | digits without a sign read as their value when it fits |
| Text.ParseNeedsDigit | src/Configuration/SettingsManager.cs:187 | text without a digit never parses |
| RenderCommon.BandIndex | src/Visualizers/vf.CirclePacking.cs:41 | the band an item reads lies inside the spectrum, and the first item reads bin 0 |
| RenderCommon.WrapSoft | vf.Boids.cs:71-74 | the soft wrap leaves a coordinate inside the margin alone, sends one below it to the far edge and one beyond it to the near edge, so the result lies inside the margin |
| RealArith.Lerp | src/Core/VisualizerForm.cs:886-888 | a blend lies between its two ends and is the first at weight 0 |
| Colors.ParseSixDigits | src/Configuration/ConfigManager.cs:229-237 | a six-digit hex body parses to the colour of its three digit pairs |
| PaletteManager.SameBodySameColor | PaletteManager.cs:250-254 | two inputs with the same hex body parse to the same colour |
| PaletteManager.EnteredStop | PaletteManager.cs:242-247 | a blank line, or the end of the input, ends the entry loop with no further colours |
| PaletteManager.EnteredStep | PaletteManager.cs:242-261 | a non-blank line contributes its colour when it parses, and nothing otherwise, before the rest of the entries |
| ConsoleMenu.WrapOnce | src/UI/ConsoleMenu.cs:73-76 | for `a` in [0, 2 count) the remainder `a % count` subtracts the count at most once, as the up and down keys need |

## Left out

- Floating point: `float`/`double` values are reals, so rounding, `NaN` and infinities are not modelled. The `(byte)` casts of colour channels are modelled only where a value may leave [0, 255].
- The FFT (`FastFourierTransform`) and the `Math.Sqrt` magnitude are foreign numerics: the analyser takes the magnitude array as an input.
- The Hamming window's coefficients are an input sequence, not computed.
- Trigonometry, `Math.Sqrt`, `Math.Pow`, `Math.Log10`, `Vector2.Length` and `Normalize` are function parameters. Random unit headings are draws given as `(cos, sin)` pairs.
- `System.Random`: each renderer's draws are streams indexed by the entity they serve, so the order in which one shared `Random` is consumed is not modelled. The fractal tree's draws are keyed by the branch path.
- Concurrency: the `lock`, the `ConcurrentQueue`, `BeginInvoke`, the render `Timer`, and the render thread's reads of the sample queue. The reactive snapshot is a plain sequential copy.
- SkiaSharp drawing is not modelled: canvases, paints, shaders, `SKColor.FromHsv`, paths and `canvas.Translate`. The model keeps only the values the drawing code computes and clamps.
- Some per-frame drawing loops are not modelled: the Boids and Metaballs draw loops, the terrain's projection loops with their centroid, hue and value, and the skyline path's closing corners.
- JSON persistence (`LoadConfig`/`SaveConfig`) is not modelled: the configuration store is in memory.
- Console I/O (`ReadKey`, `ReadLine`, `WriteLine`, cursor and colour changes) is not modelled. Keys and input lines are parameters, and output is left out.
- WASAPI loopback capture and device enumeration (src/UI/MenuSystem.cs and the capture start and stop) are OS audio I/O.
- Win32 plumbing: the layered-window P/Invoke code, `IsPositionOnScreen`, the fullscreen, transparency and topmost toggles, and src/UI/TrayManager.cs.
- The drawing-only renderers are not modelled: Plasma, FractalKaleidoscope, Kaleidoscope, NeonTunnel, SpectrumBars, RadialSpectrum, Waveform, CrtGlitch and the Pipes3D drawing. The pipe segment growth inside `OnDataAvailable` is modelled.
- The second copy of `VisualizerForm` in Program.cs, including its disabled `#if false` block, duplicates src/Core/VisualizerForm.cs and is not modelled again.
- `SKColor.Parse` is modelled as: trim, an optional `#`, then 3, 4, 6 or 8 hex digits. Other formats the library may accept are not modelled.
- `string.Trim` removes a fixed set of white-space characters, not every Unicode white-space character.
- Text.ToLowerChar: lowers the ASCII capitals A-Z only, while .NET's `ToLower()` also lowers non-ASCII capitals such as É, Ä or Cyrillic letters. `ToLower` is used only for the reset confirmation, and `SettingsManager.ConfirmOnlyYesLetters` shows that a confirmed answer holds only white space and y, e, s in either case. .NET lowers no non-ASCII capital to one of those, so the gap cannot change whether an answer confirms.
- `int.TryParse` is modelled with the default number style: optional surrounding white space, an optional sign and decimal digits, within 32-bit range. Culture-specific signs and symbols are not modelled.
- The neighbour sort in `DrawVoronoi` uses `List.Sort`, which is not stable, while the model sorts by insertion. Sites at equal distance may therefore be listed in a different order than the source's. The proved properties (sorted by distance, the site itself excluded, every other site exactly once) hold for either order.
- CirclePacking.Separate: states only that the pass moves centres and keeps the pool's length. It does not state that overlaps shrink.
- Metaballs.FrameKeepsBalls: states the ball count, the radius range and the wrap margin after a frame. It does not state a bound on velocity after the frame's motion.
