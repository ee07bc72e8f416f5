/**
 * `SettingsManager`: the settings menu. Its four toggles, the window-size
 * menu and the reset all write through the configuration store.
 */
module SettingsManager {
  import opened Wrappers
  import opened Text
  import opened ConfigManager
  import opened WindowSizes

  /**
   * The answer to the reset question: `ReadLine()?.ToLower().Trim() ?? ""`
   * is `"y"` or `"yes"`. `None` is the end of input.
   */
  predicate ConfirmsReset(answer: Option<string>)
  {
    var input := if answer.None? then "" else Trim(ToLower(answer.value));
    input == "y" || input == "yes"
  }

  /** Upper case confirms the same way as lower case. */
  lemma ConfirmCaseInsensitive(s: string)
    ensures ConfirmsReset(Some(ToLower(s))) == ConfirmsReset(Some(s))
  {
    ToLowerAt(s);
    ToLowerAt(ToLower(s));
    assert ToLower(ToLower(s)) == ToLower(s);
  }

  /** White space before the answer is ignored. */
  lemma ConfirmIgnoresLeadingSpace(s: string)
    ensures ConfirmsReset(Some(" " + s)) == ConfirmsReset(Some(s))
  {
    var u := " " + s;
    assert u[1..] == s;
    assert ToLower(u) == " " + ToLower(s);
    assert ToLower(u)[1..] == ToLower(s);
  }

  /**
   * A confirmed answer holds nothing but white space and the letters of
   * "yes" in either case: every other character, a capital outside A-Z
   * included, keeps the answer from confirming.
   */
  lemma {:induction false} ConfirmOnlyYesLetters(s: string)
    requires ConfirmsReset(Some(s))
    ensures forall i :: 0 <= i < |s| ==> IsWhiteSpace(s[i]) || s[i] in "yYeEsS"
  {
    var lowered := ToLower(s);
    ToLowerAt(s);
    var k := TrimmedAt(lowered);
    var t := Trim(lowered);
    forall i | 0 <= i < |s|
      ensures IsWhiteSpace(s[i]) || s[i] in "yYeEsS"
    {
      if k <= i < k + |t| {
        assert lowered[i] == t[i - k];
        assert t[i - k] in "yes";
      } else {
        assert IsWhiteSpace(lowered[i]);
      }
    }
  }

  /** The end of input cancels the reset. */
  lemma EndOfInputCancels()
    ensures !ConfirmsReset(None)
  {
  }

  /** One pass through the settings menu: the entry chosen and the inputs its action reads. */
  datatype SettingsRound = SettingsRound(
    menuChoice: int,             // the settings menu's result: -1 (Escape) or an entry 0..6
    sizeChoice: int,             // the window-size menu's result, read by entry 4
    widthText: string,           // the custom width line, read by entry 4
    heightText: string,          // the custom height line, read by entry 4
    resetAnswer: Option<string>) // the confirmation line, read by entry 5

  predicate WellFormedRound(r: SettingsRound)
  {
    -1 <= r.menuChoice < 7 && -1 <= r.sizeChoice <= CustomIndex
  }

  /** Escape and "Back" leave the settings menu. */
  predicate Leaves(r: SettingsRound)
  {
    r.menuChoice == -1 || r.menuChoice == 6
  }

  /** Entries 0 to 3 flip transparency, always-on-top, full screen and auto-start. */
  function Toggled(c: AppConfig, choice: int): AppConfig
    requires 0 <= choice < 4
  {
    match choice
    case 0 => c.(transparencyMode := !c.transparencyMode)
    case 1 => c.(alwaysOnTopMode := !c.alwaysOnTopMode)
    case 2 => c.(fullScreenDefault := !c.fullScreenDefault)
    case 3 => c.(autoStartVisualizer := !c.autoStartVisualizer)
  }

  /** The configuration after one menu entry that does not leave the menu. */
  function SettingsStep(c: AppConfig, r: SettingsRound): AppConfig
    requires WellFormedRound(r) && !Leaves(r)
  {
    match r.menuChoice
    case 0 | 1 | 2 | 3 => Toggled(c, r.menuChoice)
    case 4 =>
      var size := WindowSizeAfter(r.sizeChoice, c.selectedWindowWidth, c.selectedWindowHeight, r.widthText, r.heightText);
      c.(selectedWindowWidth := size.0, selectedWindowHeight := size.1)
    case 5 => if ConfirmsReset(r.resetAnswer) then Defaults else c
  }

  /** The configuration after the settings menu has run through `rounds`. */
  function SettingsAfter(c: AppConfig, rounds: seq<SettingsRound>): AppConfig
    requires forall k :: 0 <= k < |rounds| ==> WellFormedRound(rounds[k])
    decreases |rounds|
  {
    if |rounds| == 0 || Leaves(rounds[0]) then c
    else SettingsAfter(SettingsStep(c, rounds[0]), rounds[1..])
  }

  /** Choosing the same toggle twice in a row restores the configuration. */
  lemma ToggleTwice(c: AppConfig, r: SettingsRound)
    requires WellFormedRound(r) && 0 <= r.menuChoice < 4
    ensures SettingsStep(SettingsStep(c, r), r) == c
  {
    var d := Toggled(c, r.menuChoice);
    assert SettingsStep(c, r) == d;
    assert SettingsStep(d, r) == Toggled(d, r.menuChoice);
  }

  /** Nothing after Escape or "Back" has any effect. */
  lemma LeavingStops(c: AppConfig, rounds: seq<SettingsRound>)
    requires forall k :: 0 <= k < |rounds| ==> WellFormedRound(rounds[k])
    requires |rounds| > 0 && Leaves(rounds[0])
    ensures SettingsAfter(c, rounds) == c
  {
  }

  /** The fields the settings menu does not offer are the same in `a` and `b`. */
  predicate SameOtherFields(a: AppConfig, b: AppConfig)
  {
    a.selectedVisual == b.selectedVisual && a.selectedPalette == b.selectedPalette
    && a.toggleRememberPosition == b.toggleRememberPosition
    && a.windowPositionX == b.windowPositionX && a.windowPositionY == b.windowPositionY
    && a.customPaletteColors == b.customPaletteColors
  }

  /** One entry other than a confirmed reset keeps the fields the menu does not offer. */
  lemma StepKeepsOthers(c: AppConfig, r: SettingsRound)
    requires WellFormedRound(r) && !Leaves(r)
    requires r.menuChoice == 5 ==> !ConfirmsReset(r.resetAnswer)
    ensures SameOtherFields(SettingsStep(c, r), c)
  {
    if r.menuChoice < 4 {
      assert SettingsStep(c, r) == Toggled(c, r.menuChoice);
    }
  }

  /**
   * Without a confirmed reset the settings menu changes only the four
   * toggles and the window size: the palette, the visualizer, the remembered
   * position and the custom palette are kept.
   */
  lemma {:induction false} SettingsKeepOthers(c: AppConfig, rounds: seq<SettingsRound>)
    requires forall k :: 0 <= k < |rounds| ==> WellFormedRound(rounds[k])
    requires forall k :: 0 <= k < |rounds| && rounds[k].menuChoice == 5 ==> !ConfirmsReset(rounds[k].resetAnswer)
    ensures SameOtherFields(SettingsAfter(c, rounds), c)
    decreases |rounds|
  {
    if |rounds| > 0 && !Leaves(rounds[0]) {
      var d := SettingsStep(c, rounds[0]);
      StepKeepsOthers(c, rounds[0]);
      SettingsKeepOthers(d, rounds[1..]);
    }
  }

  /** A confirmed reset as the last action leaves exactly the defaults. */
  lemma {:induction false} ResetLast(c: AppConfig, rounds: seq<SettingsRound>, r: SettingsRound)
    requires forall k :: 0 <= k < |rounds| ==> WellFormedRound(rounds[k]) && !Leaves(rounds[k])
    requires WellFormedRound(r) && r.menuChoice == 5 && ConfirmsReset(r.resetAnswer)
    ensures SettingsAfter(c, rounds + [r]) == Defaults
    decreases |rounds|
  {
    if |rounds| == 0 {
      assert SettingsAfter(c, [r]) == SettingsAfter(Defaults, []);
    } else {
      assert (rounds + [r])[1..] == rounds[1..] + [r];
      ResetLast(SettingsStep(c, rounds[0]), rounds[1..], r);
    }
  }

  /** `ResetSettings`: the defaults when the answer confirms, no change otherwise. */
  method ResetSettings(store: ConfigStore, answer: Option<string>)
    modifies store
    ensures ConfirmsReset(answer) ==> store.config == Defaults
    ensures !ConfirmsReset(answer) ==> store.config == old(store.config)
  {
    var input := if answer.None? then "" else Trim(ToLower(answer.value));
    if input == "y" || input == "yes" {
      store.ResetToDefaults();
    }
  }

  /**
   * `SelectWindowSize`: finds the entry to highlight, then applies the menu's
   * choice `sel` (with the custom-size lines when it is the last entry).
   */
  method SelectWindowSize(store: ConfigStore, sel: int, widthText: string, heightText: string)
    returns (currentIndex: int)
    requires -1 <= sel <= CustomIndex
    modifies store
    ensures IsFirstMatch(old(store.config.selectedWindowWidth), old(store.config.selectedWindowHeight), currentIndex)
    ensures var size := WindowSizeAfter(sel, old(store.config.selectedWindowWidth),
      old(store.config.selectedWindowHeight), widthText, heightText);
      store.config == old(store.config).(selectedWindowWidth := size.0, selectedWindowHeight := size.1)
  {
    currentIndex := CurrentPresetIndex(store.config.selectedWindowWidth, store.config.selectedWindowHeight);
    if sel == -1 {
      return;
    }
    if sel == CustomIndex {
      var width := ParseInt32(widthText);
      if width.Some? && width.value > 0 {
        var height := ParseInt32(heightText);
        if height.Some? && height.value > 0 {
          store.SetSelectedWindowWidth(width.value);
          store.SetSelectedWindowHeight(height.value);
        }
      }
    } else {
      var resolution := ReadPresetEntry(sel);
      store.SetSelectedWindowWidth(resolution.0);
      store.SetSelectedWindowHeight(resolution.1);
    }
  }

  /** `ShowSettings`: runs menu rounds until Escape, "Back" or the end of `rounds`. */
  method ShowSettings(store: ConfigStore, rounds: seq<SettingsRound>)
    requires forall k :: 0 <= k < |rounds| ==> WellFormedRound(rounds[k])
    modifies store
    ensures store.config == SettingsAfter(old(store.config), rounds)
  {
    var i := 0;
    while i < |rounds|
      invariant 0 <= i <= |rounds|
      invariant SettingsAfter(store.config, rounds[i..]) == SettingsAfter(old(store.config), rounds)
    {
      var r := rounds[i];
      assert rounds[i..][0] == r && rounds[i..][1..] == rounds[i + 1..];
      if r.menuChoice == -1 || r.menuChoice == 6 {
        return;
      }
      if r.menuChoice == 0 {
        store.SetTransparencyMode(!store.config.transparencyMode);
      } else if r.menuChoice == 1 {
        store.SetAlwaysOnTopMode(!store.config.alwaysOnTopMode);
      } else if r.menuChoice == 2 {
        store.SetFullScreenDefault(!store.config.fullScreenDefault);
      } else if r.menuChoice == 3 {
        store.SetAutoStartVisualizer(!store.config.autoStartVisualizer);
      } else if r.menuChoice == 4 {
        var _ := SelectWindowSize(store, r.sizeChoice, r.widthText, r.heightText);
      } else {
        ResetSettings(store, r.resetAnswer);
      }
      i := i + 1;
    }
  }
}
