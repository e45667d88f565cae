/// The NEON main menu page (MainMenu/index.tsx): four items whose actions call functions
/// bound on window.ue.interface, "continue" disabled without save data, and keyboard,
/// gamepad and mouse input moving and activating the selection.
///
/// React state is a field; a functional state update runs on the latest state, and a
/// handler reads the values of the render it was created in. The gamepad poll keeps its
/// last button states in a variable of the effect. The effect depends on menuItems, a new
/// array at every render, so React sets it up again after every render: a method that
/// changes the selection or the input mode leaves the memory empty, and Resubscribe is a
/// render for any other reason.
module MainMenu {
  import opened Wrappers
  import opened MenuNavigation

  /// An item: its id, the engine function its action calls, and its disabled flag.
  datatype MenuItem = MenuItem(id: string, functionName: string, disabled: bool)

  /// The items in order; "continue" is disabled when there is no save data.
  function Items(hasSaveData: bool): (items: seq<MenuItem>)
    ensures |items| == 4
    ensures items[1].id == "continue" && (items[1].disabled <==> !hasSaveData)
    ensures forall i :: 0 <= i < |items| && i != 1 ==> !items[i].disabled
  {
    [MenuItem("new_game", "new_game", false),
     MenuItem("continue", "continue_game", !hasSaveData),
     MenuItem("settings", "open_settings", false),
     MenuItem("quit", "quit_game", false)]
  }

  /// The items' disabled flags, which the selection updaters read.
  function Flags(items: seq<MenuItem>): (flags: seq<bool>)
    ensures |flags| == |items|
  {
    seq(|items|, i requires 0 <= i < |items| => items[i].disabled)
  }

  /// activateMenuItem: the engine function to call for the item at `index`, if there is
  /// such an item and it is enabled.
  function Activation(items: seq<MenuItem>, index: int): (f: Option<string>)
    ensures f.Some? <==> 0 <= index < |items| && !items[index].disabled
    ensures f.Some? ==> f.value == items[index].functionName
  {
    if 0 <= index < |items| && !items[index].disabled then Some(items[index].functionName) else None
  }

  /// Without save data no input can start "continue_game".
  lemma ContinueNeedsSaveData(index: int)
    ensures Activation(Items(false), index) != Some("continue_game")
    ensures Activation(Items(true), 1) == Some("continue_game")
  {
  }

  /// Without save data Down from "new_game" skips "continue" and Up from "settings" skips
  /// back over it; with save data Down stops on it.
  lemma {:induction false} ContinueIsSkipped()
    ensures Down(Flags(Items(false)), 0) == 2
    ensures Up(Flags(Items(false)), 2) == 0
    ensures Down(Flags(Items(true)), 0) == 1
  {
    var flags := Flags(Items(false));
    assert flags[1] && !flags[2] && !flags[0];
    assert DownFrom(flags, 0, 1) == DownFrom(flags, 0, 2);
    assert UpFrom(flags, 2, 1) == UpFrom(flags, 2, 2);
    assert !Flags(Items(true))[1];
  }

  /// A call of callUE5Function: the function name and its arguments.
  datatype EngineCall = EngineCall(name: string, args: seq<string>)

  /// callUE5Function: a function missing from window.ue.interface is not called.
  function Called(bound: set<string>, name: string, args: seq<string>): seq<EngineCall>
  {
    if name in bound then [EngineCall(name, args)] else []
  }

  /// The calls activating the item at `index` makes.
  function ActivationCalls(bound: set<string>, items: seq<MenuItem>, index: int): seq<EngineCall>
  {
    match Activation(items, index)
    case None => []
    case Some(f) => Called(bound, f, [])
  }

  /// The calls a poll that fired `fired` makes: A activates `selected`, B logs.
  function PollCalls(bound: set<string>, items: seq<MenuItem>, selected: nat, fired: Buttons): seq<EngineCall>
  {
    (if fired.a then ActivationCalls(bound, items, selected) else [])
    + (if fired.b then Called(bound, "log_message", ["B button pressed on main menu"]) else [])
  }

  datatype InputMode = KeyboardMode | GamepadMode

  class Menu {
    /// The functions bound on window.ue.interface (none when it is missing).
    const bound: set<string>
    var hasSaveData: bool
    var selectedIndex: nat
    var inputMode: InputMode
    var lastButtons: Buttons
    var calls: seq<EngineCall>

    /// The selection is always an enabled item: it starts on the first item, moves only
    /// onto enabled items, and hovering a disabled item does nothing.
    predicate Valid()
      reads this`selectedIndex, this`hasSaveData
    {
      selectedIndex < 4 && !Items(hasSaveData)[selectedIndex].disabled
    }

    /// The mounted page: nothing selected but the first item, no save data.
    constructor (bound: set<string>)
      ensures this.bound == bound
      ensures !hasSaveData && selectedIndex == 0 && inputMode == KeyboardMode
      ensures lastButtons == Released && calls == []
      ensures Valid()
    {
      this.bound := bound;
      hasSaveData := false;
      selectedIndex := 0;
      inputMode := KeyboardMode;
      lastButtons := Released;
      calls := [];
    }

    /// activateMenuItem.
    method ActivateMenuItem(index: int)
      modifies this`calls
      ensures calls == old(calls) + ActivationCalls(bound, Items(hasSaveData), index)
    {
      var f := Activation(Items(hasSaveData), index);
      if f.Some? {
        calls := calls + Called(bound, f.value, []);
      }
    }

    /// handleKeyDown: the input mode becomes keyboard; arrows, w/s and Tab move the
    /// selection, Enter and Space activate the selected item, Escape logs a message.
    method HandleKeyDown(key: string, shiftKey: bool)
      requires Valid()
      modifies this`selectedIndex, this`inputMode, this`lastButtons, this`calls
      ensures Valid()
      ensures inputMode == KeyboardMode
      ensures lastButtons ==
        if selectedIndex != old(selectedIndex) || inputMode != old(inputMode) then Released else old(lastButtons)
      ensures var flags := Flags(Items(hasSaveData)); var prev := old(selectedIndex);
        selectedIndex == match KeyActionOf(key)
          case MoveUp => Up(flags, prev)
          case MoveDown => Down(flags, prev)
          case TabMove => if shiftKey then Up(flags, prev) else Down(flags, prev)
          case _ => prev
      ensures calls == old(calls) + match KeyActionOf(key)
        case Activate => ActivationCalls(bound, Items(hasSaveData), old(selectedIndex))
        case Escape => Called(bound, "log_message", ["Escape pressed on main menu"])
        case _ => []
    {
      var start, mode := selectedIndex, inputMode;
      inputMode := KeyboardMode;
      var flags := Flags(Items(hasSaveData));
      match KeyActionOf(key) {
      case MoveUp =>
        selectedIndex := SelectUp(flags, selectedIndex);
        StepsKeepEnabled(flags, old(selectedIndex));
      case MoveDown =>
        selectedIndex := SelectDown(flags, selectedIndex);
        StepsKeepEnabled(flags, old(selectedIndex));
      case Activate =>
        ActivateMenuItem(selectedIndex);
      case Escape =>
        calls := calls + Called(bound, "log_message", ["Escape pressed on main menu"]);
      case TabMove =>
        selectedIndex := SelectTab(flags, selectedIndex, shiftKey);
        StepsKeepEnabled(flags, old(selectedIndex));
      case NoAction =>
      }
      if selectedIndex != start || inputMode != mode {
        lastButtons := Released;
      }
    }

    /// checkGamepad: with a gamepad connected the input mode becomes gamepad, and each
    /// button that has just gone down acts: up and down move the selection (in that
    /// order), A activates the item selected when the poll began, B logs a message.
    method CheckGamepad(pad: Option<Gamepad>)
      requires Valid()
      modifies this`selectedIndex, this`inputMode, this`lastButtons, this`calls
      ensures Valid()
      ensures pad.None? ==>
        (selectedIndex == old(selectedIndex) && inputMode == old(inputMode)
         && lastButtons == old(lastButtons) && calls == old(calls))
      ensures pad.Some? ==>
        (var fired := Rising(Pressed(pad.value), old(lastButtons));
         inputMode == GamepadMode
         && lastButtons == (if selectedIndex != old(selectedIndex) || old(inputMode) != GamepadMode
                            then Released else Pressed(pad.value))
         && selectedIndex == PollSelection(Flags(Items(hasSaveData)), old(selectedIndex), fired)
         && calls == old(calls) + PollCalls(bound, Items(hasSaveData), old(selectedIndex), fired))
    {
      if pad.None? {
        return;
      }
      var items := Items(hasSaveData);
      var flags := Flags(items);
      var now := Pressed(pad.value);
      var fired := Rising(now, lastButtons);
      var start := selectedIndex;
      var next := MovePoll(flags, start, fired);
      var newCalls := [];
      if fired.a {
        newCalls := ActivationCalls(bound, items, start);
      }
      if fired.b {
        newCalls := newCalls + Called(bound, "log_message", ["B button pressed on main menu"]);
      }
      PollKeepsEnabled(flags, start, fired);
      lastButtons := if next != start || inputMode != GamepadMode then Released else now;
      inputMode := GamepadMode;
      selectedIndex := next;
      calls := calls + newCalls;
    }

    /// The gamepad effect set up again after a render for another reason (new save data, a
    /// render of the parent): its button memory starts empty.
    method Resubscribe()
      modifies this`lastButtons
      ensures lastButtons == Released
    {
      lastButtons := Released;
    }

    /// The page's onMouseEnter on the item at `index`: only an enabled item runs
    /// handleMouseEnter, which sets keyboard mode and selects it; hovering a disabled item
    /// changes nothing.
    method MouseEnter(index: nat)
      requires index < 4 && Valid()
      modifies this`selectedIndex, this`inputMode, this`lastButtons
      ensures Items(hasSaveData)[index].disabled ==>
        selectedIndex == old(selectedIndex) && inputMode == old(inputMode)
      ensures lastButtons ==
        if selectedIndex != old(selectedIndex) || inputMode != old(inputMode) then Released else old(lastButtons)
      ensures !Items(hasSaveData)[index].disabled ==>
        selectedIndex == index && inputMode == KeyboardMode
      ensures Valid()
    {
      if !Items(hasSaveData)[index].disabled {
        if selectedIndex != index || inputMode != KeyboardMode {
          lastButtons := Released;
        }
        inputMode := KeyboardMode;
        selectedIndex := index;
      }
    }

    /// handleButtonClick on the item at `index`: its action runs unless it is disabled.
    method ButtonClick(index: nat)
      requires index < 4
      modifies this`calls
      ensures calls == old(calls) +
        if Items(hasSaveData)[index].disabled then [] else Called(bound, Items(hasSaveData)[index].functionName, [])
    {
      var item := Items(hasSaveData)[index];
      if !item.disabled {
        calls := calls + Called(bound, item.functionName, []);
      }
    }
  }
}
