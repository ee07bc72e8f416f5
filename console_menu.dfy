/**
 * `ConsoleMenu.ShowMenu`: a list of options, each reachable by a shortcut key
 * (1-9, 0, then A-Z) or by moving a highlight with the arrow keys and
 * confirming with Enter or Space.
 */
module ConsoleMenu {
  import opened Wrappers
  import opened Numerics

  /** A UTF-16 code unit, the element of a .NET string. */
  type CodeUnit = x: int | 0 <= x < 0x1_0000

  type Digit = d: int | 0 <= d <= 9
  type LetterOffset = k: int | 0 <= k < 26

  /** The `ConsoleKey` values the menu reacts to; every other key is `Other`. */
  datatype Key =
    | D(digit: Digit)              // top-row D0..D9
    | NumPad(digit: Digit)         // NumPad0..NumPad9
    | Letter(offset: LetterOffset) // A..Z
    | UpArrow | DownArrow | LeftArrow | RightArrow
    | Enter | Spacebar | Escape
    | Other

  const DigitZero: CodeUnit := 48    // '0'
  const LetterA: CodeUnit := 65      // 'A'

  /**
   * `GetKeyLabelForIndex`: items 0..8 are labelled "1".."9", item 9 is "0",
   * and item 10 + k is the letter 'A' + k (a `char` cast, so it wraps at 2^16).
   */
  function GetKeyLabelForIndex(index: nat): (text: seq<CodeUnit>)
    ensures |text| == 1
    ensures index < 9 ==> text[0] == DigitZero + index + 1
    ensures index == 9 ==> text[0] == DigitZero
    ensures 10 <= index < 36 ==> text[0] == LetterA + index - 10
  {
    if index < 9 then [DigitZero + index + 1]
    else if index == 9 then [DigitZero]
    else [(LetterA + index - 10) % 0x1_0000]
  }

  /** The key whose face shows a one-character label: a top-row digit or a letter. */
  function KeyForLabel(text: seq<CodeUnit>): Option<Key>
  {
    if |text| != 1 then None
    else if DigitZero <= text[0] <= DigitZero + 9 then Some(D(text[0] - DigitZero))
    else if LetterA <= text[0] < LetterA + 26 then Some(Letter(text[0] - LetterA))
    else None
  }

  /** The item a shortcut key picks straight away in a menu of `count` items, checked in the source's order. */
  function Shortcut(key: Key, count: int): (r: Option<int>)
    ensures r.Some? ==> 0 <= r.value < count
  {
    match key
    case D(d) =>
      if 1 <= d <= count then Some(d - 1)
      else if d == 0 && count >= 10 then Some(9)
      else None
    case NumPad(d) =>
      if 1 <= d <= count then Some(d - 1)
      else if d == 0 && count >= 10 then Some(9)
      else None
    case Letter(k) =>
      if 10 + k < count then Some(10 + k) else None
    case _ => None
  }

  /** For every item a label can name, pressing the labelled key returns that item. */
  lemma LabelSelectsItem(i: nat, count: int)
    requires i < count && i < 36
    ensures KeyForLabel(GetKeyLabelForIndex(i)).Some?
    ensures Shortcut(KeyForLabel(GetKeyLabelForIndex(i)).value, count) == Some(i)
  {
  }

  /**
   * Conversely, a shortcut only ever returns the item whose label is on the key
   * pressed (the number pad sharing the top-row labels).
   */
  lemma ShortcutMatchesLabel(key: Key, count: int)
    requires Shortcut(key, count).Some?
    ensures var i := Shortcut(key, count).value;
      0 <= i < count && i < 36 &&
      KeyForLabel(GetKeyLabelForIndex(i)) == Some(if key.NumPad? then D(key.digit) else key)
  {
  }

  /** One key press: return an item (or -1), move the highlight, or divide by zero on an empty menu. */
  datatype Step = Return(value: int) | Move(selected: int) | DivideByZero

  function MenuStep(count: int, selected: int, key: Key): Step
  {
    match Shortcut(key, count)
    case Some(i) => Return(i)
    case None =>
      match key
      case UpArrow => if count == 0 then DivideByZero else Move(IntRem(selected - 1 + count, count))
      case DownArrow => if count == 0 then DivideByZero else Move(IntRem(selected + 1, count))
      case Enter => Return(selected)
      case Spacebar => Return(selected)
      case Escape => Return(-1)
      case _ => Move(selected)
  }

  /** Arrow keys wrap around and keep the highlight on an item. */
  lemma StepKeepsRange(count: int, selected: int, key: Key)
    requires 0 <= selected < count
    ensures MenuStep(count, selected, key).Return? ==> -1 <= MenuStep(count, selected, key).value < count
    ensures MenuStep(count, selected, key).Move? ==> 0 <= MenuStep(count, selected, key).selected < count
    ensures !MenuStep(count, selected, key).DivideByZero?
    ensures key == UpArrow && count > 0 ==> MenuStep(count, selected, key) == Move(if selected == 0 then count - 1 else selected - 1)
    ensures key == DownArrow && count > 0 ==> MenuStep(count, selected, key) == Move(if selected == count - 1 then 0 else selected + 1)
  {
    if Shortcut(key, count).None? {
      if key == UpArrow {
        WrapOnce(selected - 1 + count, count);
      } else if key == DownArrow {
        WrapOnce(selected + 1, count);
      }
    }
  }

  lemma WrapOnce(a: int, count: int)
    requires 0 <= a < 2 * count
    ensures IntRem(a, count) == (if a < count then a else a - count)
  {
    if a >= count {
      assert a == count * 1 + (a - count);
    }
  }

  /** Down undoes Up. */
  lemma DownUndoesUp(count: int, selected: int)
    requires 0 <= selected < count
    ensures var up := MenuStep(count, selected, UpArrow);
      up.Move? && MenuStep(count, up.selected, DownArrow) == Move(selected)
  {
    StepKeepsRange(count, selected, UpArrow);
    StepKeepsRange(count, MenuStep(count, selected, UpArrow).selected, DownArrow);
  }

  /** How a run of key presses ends: a returned value, a crash, or still waiting for a key. */
  datatype MenuOutcome = Returned(value: int) | Crashed | AwaitingKey(selected: int)

  function RunMenu(count: int, selected: int, keys: seq<Key>): MenuOutcome
    decreases |keys|
  {
    if |keys| == 0 then AwaitingKey(selected)
    else
      match MenuStep(count, selected, keys[0])
      case Return(v) => Returned(v)
      case DivideByZero => Crashed
      case Move(s) => RunMenu(count, s, keys[1..])
  }

  /** In a non-empty menu every returned value is an item index or -1, and the menu never crashes. */
  lemma {:induction false} RunMenuRange(count: int, selected: int, keys: seq<Key>)
    requires 0 <= selected < count
    ensures RunMenu(count, selected, keys).Returned? ==> -1 <= RunMenu(count, selected, keys).value < count
    ensures RunMenu(count, selected, keys).AwaitingKey? ==> 0 <= RunMenu(count, selected, keys).selected < count
    ensures !RunMenu(count, selected, keys).Crashed?
    decreases |keys|
  {
    if |keys| > 0 {
      StepKeepsRange(count, selected, keys[0]);
      var step := MenuStep(count, selected, keys[0]);
      if step.Move? {
        RunMenuRange(count, step.selected, keys[1..]);
      }
    }
  }

  /** An empty menu returns 0 on Enter, which is not an index, and crashes on an arrow key. */
  lemma EmptyMenu(keys: seq<Key>)
    requires |keys| > 0
    ensures keys[0] == Enter ==> RunMenu(0, 0, keys) == Returned(0)
    ensures keys[0] == UpArrow || keys[0] == DownArrow ==> RunMenu(0, 0, keys) == Crashed
  {
  }

  /**
   * `ShowMenu(title, options, specialIndex)` fed with `keys`: the highlight
   * starts on the first item; `specialIndex` only changes how an item is drawn.
   */
  method ShowMenu(options: seq<string>, specialIndex: int, keys: seq<Key>) returns (outcome: MenuOutcome)
    ensures outcome == RunMenu(|options|, 0, keys)
    ensures |options| > 0 && outcome.Returned? ==> -1 <= outcome.value < |options|
  {
    var count := |options|;
    var selected := 0;
    var k := 0;
    while k < |keys|
      invariant 0 <= k <= |keys|
      invariant RunMenu(count, selected, keys[k..]) == RunMenu(count, 0, keys)
      invariant count > 0 ==> 0 <= selected < count
    {
      var key := keys[k];
      assert keys[k..][0] == key && keys[k..][1..] == keys[k + 1..];
      if count > 0 {
        StepKeepsRange(count, selected, key);
      }
      match Shortcut(key, count) {
        case Some(i) =>
          return Returned(i);
        case None =>
      }
      match key {
        case UpArrow =>
          if count == 0 {
            return Crashed;
          }
          selected := IntRem(selected - 1 + count, count);
        case DownArrow =>
          if count == 0 {
            return Crashed;
          }
          selected := IntRem(selected + 1, count);
        case Enter =>
          return Returned(selected);
        case Spacebar =>
          return Returned(selected);
        case Escape =>
          return Returned(-1);
        case _ =>
      }
      k := k + 1;
    }
    assert keys[k..] == [];
    outcome := AwaitingKey(selected);
    if count > 0 {
      RunMenuRange(count, 0, keys);
    }
  }
}
