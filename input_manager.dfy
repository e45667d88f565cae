/// The input-mode state machine of the game (UNohamInputManagerSubsystem): the current
/// input device class, automatic switching on input with a half-second debounce, Steam
/// Deck detection, and a table of on-screen prompts keyed by action name (ignoring case,
/// as FString keys compare). The clock, the environment, the device make and model, and
/// gamepad detection enter as parameters; the broadcast delegate is a log of the modes
/// it was fired with.
module InputManager {
  import Text

  /// The four input modes, in declaration order.
  datatype InputMode = KeyboardMouse | Gamepad | SteamDeck | Touch

  /// The enum's underlying values.
  function InputModeCode(m: InputMode): (code: nat)
    ensures code < 4
  {
    match m
    case KeyboardMouse => 0
    case Gamepad => 1
    case SteamDeck => 2
    case Touch => 3
  }

  /// Prompt texts and icon paths of one action.
  datatype InputPromptData = InputPromptData(
    keyboardMouseText: string,
    gamepadText: string,
    keyboardMouseIconPath: string,
    gamepadIconPath: string)

  /// A prompt record as the struct initialises it: "E" / "A" and no icons.
  function DefaultPromptData(): InputPromptData
  {
    InputPromptData("E", "A", "", "")
  }

  /// A prompt with the given texts and the default (empty) icon paths.
  function Prompt(keyboardMouseText: string, gamepadText: string): (d: InputPromptData)
    ensures d.keyboardMouseIconPath == "" && d.gamepadIconPath == ""
  {
    DefaultPromptData().(keyboardMouseText := keyboardMouseText, gamepadText := gamepadText)
  }

  /// Seconds within which an automatic switch is ignored after the last one.
  const InputModeChangeDebounce: real := 0.5

  /// The text a prompt shows in a mode: an unregistered action shows its own name; a
  /// registered one shows its keyboard text with keyboard and mouse, its gamepad text on a
  /// gamepad or a Steam Deck, and "Tap" on touch.
  function PromptText(registry: map<string, InputPromptData>, mode: InputMode, actionName: string): (text: string)
    ensures Text.Lower(actionName) !in registry ==> text == actionName
    ensures Text.Lower(actionName) in registry ==>
              var data := registry[Text.Lower(actionName)];
              (mode == KeyboardMouse ==> text == data.keyboardMouseText)
              && (mode == Gamepad || mode == SteamDeck ==> text == data.gamepadText)
              && (mode == Touch ==> text == "Tap")
  {
    var key := Text.Lower(actionName);
    if key in registry then
      match mode
      case KeyboardMouse => registry[key].keyboardMouseText
      case Gamepad => registry[key].gamepadText
      case SteamDeck => registry[key].gamepadText
      case Touch => "Tap"
    else
      actionName
  }

  /// The icon a prompt shows in a mode: "" for an unregistered action; the gamepad icon on
  /// a gamepad or a Steam Deck, and the keyboard icon otherwise (touch has no icon of its
  /// own).
  function PromptIconPath(registry: map<string, InputPromptData>, mode: InputMode, actionName: string): (path: string)
    ensures Text.Lower(actionName) !in registry ==> path == ""
    ensures Text.Lower(actionName) in registry ==>
              var data := registry[Text.Lower(actionName)];
              path == (if mode == Gamepad || mode == SteamDeck then data.gamepadIconPath else data.keyboardMouseIconPath)
  {
    var key := Text.Lower(actionName);
    if key in registry then
      match mode
      case KeyboardMouse => registry[key].keyboardMouseIconPath
      case Gamepad => registry[key].gamepadIconPath
      case SteamDeck => registry[key].gamepadIconPath
      case Touch => registry[key].keyboardMouseIconPath
    else
      ""
  }

  /// The mode automatic switching aims at: gamepad input means the Steam Deck on a Steam
  /// Deck and a gamepad elsewhere; any other input means keyboard and mouse. Touch is never
  /// chosen automatically.
  function AutoSwitchTarget(fromGamepad: bool, isSteamDeck: bool): (mode: InputMode)
    ensures mode != Touch
    ensures mode == KeyboardMouse <==> !fromGamepad
    ensures mode == SteamDeck <==> fromGamepad && isSteamDeck
  {
    if fromGamepad then (if isSteamDeck then SteamDeck else Gamepad) else KeyboardMouse
  }

  /// The part of the state automatic switching reads and writes.
  datatype SwitchState = SwitchState(mode: InputMode, lastChangeTime: real)

  /// One automatic switch decision at time now. Within the debounce window of the last
  /// change nothing happens; otherwise the mode becomes the target, and the change time is
  /// moved to now only when the mode actually changes.
  function NotifyStep(s: SwitchState, isSteamDeck: bool, fromGamepad: bool, now: real): (t: SwitchState)
    ensures now - s.lastChangeTime < InputModeChangeDebounce ==> t == s
    ensures t.mode != s.mode ==> t.mode == AutoSwitchTarget(fromGamepad, isSteamDeck)
                                 && t.lastChangeTime == now
                                 && now - s.lastChangeTime >= InputModeChangeDebounce
    ensures t.mode == s.mode ==> t == s
  {
    if now - s.lastChangeTime < InputModeChangeDebounce then s
    else
      var target := AutoSwitchTarget(fromGamepad, isSteamDeck);
      if target != s.mode then SwitchState(target, now) else s
  }

  /// One input event: whether it came from a gamepad, and the clock reading when it did.
  datatype InputEvent = InputEvent(fromGamepad: bool, time: real)

  /// The clock readings at which a run of events changed the mode, in order.
  function SwitchTimes(s: SwitchState, isSteamDeck: bool, events: seq<InputEvent>): seq<real>
    decreases |events|
  {
    if events == [] then []
    else
      var t := NotifyStep(s, isSteamDeck, events[0].fromGamepad, events[0].time);
      (if t.mode != s.mode then [events[0].time] else []) + SwitchTimes(t, isSteamDeck, events[1..])
  }

  /// Consecutive readings, and the first against a starting point, are at least the
  /// debounce apart.
  predicate SpacedFrom(start: real, times: seq<real>)
  {
    (|times| > 0 ==> times[0] - start >= InputModeChangeDebounce)
    && forall i :: 0 < i < |times| ==> times[i] - times[i - 1] >= InputModeChangeDebounce
  }

  /// The debounce works: whatever the input and whatever the clock does, automatic
  /// switches happen at least half a second apart, and the first at least half a second
  /// after the last recorded change.
  lemma {:induction false} SwitchesAreDebounced(s: SwitchState, isSteamDeck: bool, events: seq<InputEvent>)
    ensures SpacedFrom(s.lastChangeTime, SwitchTimes(s, isSteamDeck, events))
    decreases |events|
  {
    if events != [] {
      var t := NotifyStep(s, isSteamDeck, events[0].fromGamepad, events[0].time);
      var rest := SwitchTimes(t, isSteamDeck, events[1..]);
      SwitchesAreDebounced(t, isSteamDeck, events[1..]);
      var head: seq<real> := if t.mode != s.mode then [events[0].time] else [];
      assert SwitchTimes(s, isSteamDeck, events) == head + rest;
      if t.mode != s.mode {
        assert t.lastChangeTime == events[0].time;
        var all := head + rest;
        forall i | 0 < i < |all|
          ensures all[i] - all[i - 1] >= InputModeChangeDebounce
        {
          if i == 1 {
            assert all[1] == rest[0] && all[0] == t.lastChangeTime;
          } else {
            assert all[i] == rest[i - 1] && all[i - 1] == rest[i - 2];
          }
        }
      } else {
        assert t == s;
      }
    }
  }

  /// Repeating the same kind of input changes nothing more: a second notification from the
  /// same device is a no-op at any time.
  lemma NotifyStepSettles(s: SwitchState, isSteamDeck: bool, fromGamepad: bool, now: real, later: real)
    ensures var t := NotifyStep(s, isSteamDeck, fromGamepad, now);
            t.mode == AutoSwitchTarget(fromGamepad, isSteamDeck) ==>
              NotifyStep(t, isSteamDeck, fromGamepad, later) == t
  {
  }

  /// Steam Deck detection: the SteamDeck environment variable is exactly "1" (compared
  /// with case), or the device make and model mentions both "Valve" and "Jupiter"
  /// (ignoring case). An unset variable reads as "".
  function DetectSteamDeck(steamDeckEnv: string, deviceMakeAndModel: string): (isSteamDeck: bool)
    ensures steamDeckEnv == "1" ==> isSteamDeck
    ensures steamDeckEnv != "1" ==>
              (isSteamDeck <==> Text.ContainsIgnoreCase(deviceMakeAndModel, "Valve")
                                && Text.ContainsIgnoreCase(deviceMakeAndModel, "Jupiter"))
  {
    var fromEnv := |steamDeckEnv| != 0 && steamDeckEnv == "1";
    if !fromEnv then
      Text.ContainsIgnoreCase(deviceMakeAndModel, "Valve") && Text.ContainsIgnoreCase(deviceMakeAndModel, "Jupiter")
    else
      fromEnv
  }

  /// The mode the game starts in: Steam Deck first, then an attached gamepad, then
  /// keyboard and mouse.
  function InitialInputMode(isSteamDeck: bool, gamepadConnected: bool): (mode: InputMode)
    ensures isSteamDeck ==> mode == SteamDeck
    ensures !isSteamDeck && gamepadConnected ==> mode == Gamepad
    ensures !isSteamDeck && !gamepadConnected ==> mode == KeyboardMouse
  {
    if isSteamDeck then SteamDeck
    else if gamepadConnected then Gamepad
    else KeyboardMouse
  }

  /// A gamepad counts as connected only when Slate is up and reports one.
  function IsGamepadConnected(slateInitialized: bool, gamepadAttached: bool): (connected: bool)
    ensures connected ==> slateInitialized
    ensures slateInitialized ==> connected == gamepadAttached
  {
    if slateInitialized then gamepadAttached else false
  }

  /// The eight built-in prompts, keyed as the registry keys them.
  function DefaultPromptRegistry(): map<string, InputPromptData>
  {
    map[Text.Lower("Move") := Prompt("WASD", "Left Stick"),
        Text.Lower("Look") := Prompt("Mouse", "Right Stick"),
        Text.Lower("Jump") := Prompt("Space", "A"),
        Text.Lower("Crouch") := Prompt("C", "B"),
        Text.Lower("Sprint") := Prompt("Shift", "Left Stick Click"),
        Text.Lower("Aim") := Prompt("Right Mouse", "Left Trigger"),
        Text.Lower("Interact") := Prompt("E", "X"),
        Text.Lower("Menu") := Prompt("Esc", "Start")]
  }

  /// The built-in table has exactly eight distinct actions.
  lemma DefaultPromptRegistrySize()
    ensures |DefaultPromptRegistry().Keys| == 8
  {
    var keys := [Text.Lower("Move"), Text.Lower("Look"), Text.Lower("Jump"), Text.Lower("Crouch"),
                 Text.Lower("Sprint"), Text.Lower("Aim"), Text.Lower("Interact"), Text.Lower("Menu")];
    // Each key differs from every other in its length or in one of its letters.
    assert keys[0][0] == 'm' && keys[0][1] == 'o';
    assert keys[1][0] == 'l';
    assert keys[2][0] == 'j';
    assert keys[3][0] == 'c';
    assert keys[4][0] == 's';
    assert keys[5][0] == 'a';
    assert keys[6][0] == 'i';
    assert keys[7][0] == 'm' && keys[7][1] == 'e';
    assert forall i, j :: 0 <= i < j < 8 ==> keys[i] != keys[j];
    assert DefaultPromptRegistry().Keys == set i | 0 <= i < 8 :: keys[i];
    SizeOfDistinct(keys);
  }

  /// A sequence without repeats has as many distinct elements as it is long.
  lemma {:induction false} SizeOfDistinct<T>(xs: seq<T>)
    requires forall i, j :: 0 <= i < j < |xs| ==> xs[i] != xs[j]
    ensures |set i | 0 <= i < |xs| :: xs[i]| == |xs|
    decreases |xs|
  {
    if xs != [] {
      var last := xs[|xs| - 1];
      var init := xs[..|xs| - 1];
      SizeOfDistinct(init);
      var whole := set i | 0 <= i < |xs| :: xs[i];
      var front := set i | 0 <= i < |init| :: init[i];
      assert whole == front + {last} by {
        forall x | x in whole ensures x in front + {last} {
          var i :| 0 <= i < |xs| && xs[i] == x;
          if i < |xs| - 1 { assert init[i] == x; }
        }
        forall x | x in front ensures x in whole {
          var i :| 0 <= i < |init| && init[i] == x;
          assert xs[i] == x;
        }
      }
      assert last !in front by {
        forall i | 0 <= i < |init| ensures init[i] != last {
          assert init[i] == xs[i];
        }
      }
    }
  }

  /// Updating a union is updating its right-hand side.
  lemma UnionThenUpdate<K, V>(m: map<K, V>, d: map<K, V>, k: K, v: V)
    ensures (m + d)[k := v] == m + d[k := v]
  {
  }

  class InputManagerSubsystem {
    var currentInputMode: InputMode
    var isSteamDeck: bool
    var inputPromptRegistry: map<string, InputPromptData>
    var lastInputModeChangeTime: real
    /// Every mode the change delegate was broadcast with, oldest first.
    var broadcasts: seq<InputMode>

    /// Keyboard and mouse, no Steam Deck, no prompts, last change at time 0.
    constructor ()
      ensures currentInputMode == KeyboardMouse && !isSteamDeck
      ensures inputPromptRegistry == map[] && lastInputModeChangeTime == 0.0 && broadcasts == []
    {
      currentInputMode := KeyboardMouse;
      isSteamDeck := false;
      inputPromptRegistry := map[];
      lastInputModeChangeTime := 0.0;
      broadcasts := [];
    }

    /// Start-up: platform detection, the initial mode, the built-in prompts.
    method Initialize(steamDeckEnv: string, deviceMakeAndModel: string, slateInitialized: bool, gamepadAttached: bool)
      modifies this`isSteamDeck, this`currentInputMode, this`inputPromptRegistry
      ensures isSteamDeck == DetectSteamDeck(steamDeckEnv, deviceMakeAndModel)
      ensures currentInputMode == InitialInputMode(isSteamDeck, IsGamepadConnected(slateInitialized, gamepadAttached))
      ensures inputPromptRegistry == old(inputPromptRegistry) + DefaultPromptRegistry()
    {
      DetectPlatform(steamDeckEnv, deviceMakeAndModel);
      DetectInitialInputMode(slateInitialized, gamepadAttached);
      RegisterDefaultPrompts();
    }

    /// A manual switch: only a different mode is stored and broadcast, and the debounce
    /// clock is left alone.
    method SetInputMode(newMode: InputMode)
      modifies this`currentInputMode, this`broadcasts
      ensures currentInputMode == newMode
      ensures broadcasts == if old(currentInputMode) != newMode then old(broadcasts) + [newMode] else old(broadcasts)
    {
      if currentInputMode != newMode {
        currentInputMode := newMode;
        broadcasts := broadcasts + [newMode];
      }
    }

    function GetInputPrompt(actionName: string): (text: string)
      reads this`inputPromptRegistry, this`currentInputMode
      ensures text == PromptText(inputPromptRegistry, currentInputMode, actionName)
    {
      PromptText(inputPromptRegistry, currentInputMode, actionName)
    }

    function GetInputPromptIconPath(actionName: string): (path: string)
      reads this`inputPromptRegistry, this`currentInputMode
      ensures path == PromptIconPath(inputPromptRegistry, currentInputMode, actionName)
    {
      PromptIconPath(inputPromptRegistry, currentInputMode, actionName)
    }

    /// Adds the prompt, replacing any earlier one for the same action.
    method RegisterInputPrompt(actionName: string, promptData: InputPromptData)
      modifies this`inputPromptRegistry
      ensures inputPromptRegistry == old(inputPromptRegistry)[Text.Lower(actionName) := promptData]
    {
      inputPromptRegistry := inputPromptRegistry[Text.Lower(actionName) := promptData];
    }

    /// An automatic switch at clock reading now (see NotifyStep); a change is broadcast.
    method NotifyInputReceived(fromGamepad: bool, now: real)
      modifies this`currentInputMode, this`lastInputModeChangeTime, this`broadcasts
      ensures SwitchState(currentInputMode, lastInputModeChangeTime)
              == NotifyStep(SwitchState(old(currentInputMode), old(lastInputModeChangeTime)), isSteamDeck, fromGamepad, now)
      ensures broadcasts == if currentInputMode != old(currentInputMode) then old(broadcasts) + [currentInputMode]
                            else old(broadcasts)
    {
      var currentTime := now;
      if currentTime - lastInputModeChangeTime < InputModeChangeDebounce {
        return;
      }
      var newMode := if fromGamepad then (if isSteamDeck then SteamDeck else Gamepad) else KeyboardMouse;
      if newMode != currentInputMode {
        currentInputMode := newMode;
        lastInputModeChangeTime := currentTime;
        broadcasts := broadcasts + [newMode];
      }
    }

    method DetectPlatform(steamDeckEnv: string, deviceMakeAndModel: string)
      modifies this`isSteamDeck
      ensures isSteamDeck == DetectSteamDeck(steamDeckEnv, deviceMakeAndModel)
    {
      isSteamDeck := |steamDeckEnv| != 0 && steamDeckEnv == "1";
      if !isSteamDeck {
        isSteamDeck := Text.ContainsIgnoreCase(deviceMakeAndModel, "Valve")
                       && Text.ContainsIgnoreCase(deviceMakeAndModel, "Jupiter");
      }
    }

    method DetectInitialInputMode(slateInitialized: bool, gamepadAttached: bool)
      modifies this`currentInputMode
      ensures currentInputMode == InitialInputMode(isSteamDeck, IsGamepadConnected(slateInitialized, gamepadAttached))
    {
      if isSteamDeck {
        currentInputMode := SteamDeck;
      } else if IsGamepadConnected(slateInitialized, gamepadAttached) {
        currentInputMode := Gamepad;
      } else {
        currentInputMode := KeyboardMouse;
      }
    }

    /// Registers the eight built-in prompts over whatever the table holds.
    method RegisterDefaultPrompts()
      modifies this`inputPromptRegistry
      ensures inputPromptRegistry == old(inputPromptRegistry) + DefaultPromptRegistry()
    {
      ghost var added: map<string, InputPromptData> := map[];
      assert old(inputPromptRegistry) + added == old(inputPromptRegistry);
      RegisterInputPrompt("Move", Prompt("WASD", "Left Stick"));
      UnionThenUpdate(old(inputPromptRegistry), added, Text.Lower("Move"), Prompt("WASD", "Left Stick"));
      added := added[Text.Lower("Move") := Prompt("WASD", "Left Stick")];
      assert inputPromptRegistry == old(inputPromptRegistry) + added;
      RegisterInputPrompt("Look", Prompt("Mouse", "Right Stick"));
      UnionThenUpdate(old(inputPromptRegistry), added, Text.Lower("Look"), Prompt("Mouse", "Right Stick"));
      added := added[Text.Lower("Look") := Prompt("Mouse", "Right Stick")];
      assert inputPromptRegistry == old(inputPromptRegistry) + added;
      RegisterInputPrompt("Jump", Prompt("Space", "A"));
      UnionThenUpdate(old(inputPromptRegistry), added, Text.Lower("Jump"), Prompt("Space", "A"));
      added := added[Text.Lower("Jump") := Prompt("Space", "A")];
      assert inputPromptRegistry == old(inputPromptRegistry) + added;
      RegisterInputPrompt("Crouch", Prompt("C", "B"));
      UnionThenUpdate(old(inputPromptRegistry), added, Text.Lower("Crouch"), Prompt("C", "B"));
      added := added[Text.Lower("Crouch") := Prompt("C", "B")];
      assert inputPromptRegistry == old(inputPromptRegistry) + added;
      RegisterInputPrompt("Sprint", Prompt("Shift", "Left Stick Click"));
      UnionThenUpdate(old(inputPromptRegistry), added, Text.Lower("Sprint"), Prompt("Shift", "Left Stick Click"));
      added := added[Text.Lower("Sprint") := Prompt("Shift", "Left Stick Click")];
      assert inputPromptRegistry == old(inputPromptRegistry) + added;
      RegisterInputPrompt("Aim", Prompt("Right Mouse", "Left Trigger"));
      UnionThenUpdate(old(inputPromptRegistry), added, Text.Lower("Aim"), Prompt("Right Mouse", "Left Trigger"));
      added := added[Text.Lower("Aim") := Prompt("Right Mouse", "Left Trigger")];
      assert inputPromptRegistry == old(inputPromptRegistry) + added;
      RegisterInputPrompt("Interact", Prompt("E", "X"));
      UnionThenUpdate(old(inputPromptRegistry), added, Text.Lower("Interact"), Prompt("E", "X"));
      added := added[Text.Lower("Interact") := Prompt("E", "X")];
      assert inputPromptRegistry == old(inputPromptRegistry) + added;
      RegisterInputPrompt("Menu", Prompt("Esc", "Start"));
      UnionThenUpdate(old(inputPromptRegistry), added, Text.Lower("Menu"), Prompt("Esc", "Start"));
      added := added[Text.Lower("Menu") := Prompt("Esc", "Start")];
      assert inputPromptRegistry == old(inputPromptRegistry) + added;
      assert added == DefaultPromptRegistry();
    }
  }
}
