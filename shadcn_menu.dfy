/// The shadcn main menu (shadcn-base/src/MainMenu.tsx): four items, none of them
/// disabled, of which only "quit" reaches the engine (through NEON.invokeUnrealEvent);
/// the others navigate inside the page. Keyboard, gamepad and mouse input move and
/// activate the selection with the updaters of MenuNavigation.
module ShadcnMenu {
  import opened Wrappers
  import opened Json
  import opened MenuNavigation
  import NeonJs
  import MessageHandler

  /// What an item does: a page change inside the web app, or an engine event.
  datatype Action = Navigate(page: string) | SendEvent(name: string, params: Value)

  /// An item has no disabled flag.
  datatype MenuItem = MenuItem(id: string, action: Action)

  const Items: seq<MenuItem> := [
    MenuItem("new_game", Navigate("new-game")),
    MenuItem("load_game", Navigate("load-game")),
    MenuItem("settings", Navigate("settings")),
    MenuItem("quit", SendEvent("QuitGame", JObject(map[])))
  ]

  /// `menuItems[i]?.disabled` is undefined, hence false, for every item.
  const Flags: seq<bool> := [false, false, false, false]

  /// activateMenuItem: every existing item acts.
  function Activation(index: int): (a: Option<Action>)
    ensures a.Some? <==> 0 <= index < |Items|
    ensures a.Some? ==> a.value == Items[index].action
  {
    if 0 <= index < |Items| then Some(Items[index].action) else None
  }

  /// Only "quit" talks to the engine, with the event "QuitGame" and empty parameters.
  lemma OnlyQuitReachesEngine(i: nat)
    requires i < |Items|
    ensures Items[i].action.SendEvent? <==> Items[i].id == "quit"
    ensures Items[i].id == "quit" ==> Items[i].action == SendEvent("QuitGame", JObject(map[]))
  {
  }

  /// With no disabled item, Down is (prev + 1) mod 4 and Up is (prev - 1) mod 4.
  lemma StepsWrapAroundFour(prev: nat)
    requires prev < 4
    ensures Down(Flags, prev) == (prev + 1) % 4
    ensures Up(Flags, prev) == (prev - 1) % 4
  {
    AllEnabledSteps(Flags, prev);
  }

  /// Quitting reaches the engine as the event "OnInvoke_QuitGame" with no parameters.
  lemma QuitDispatchesEvent()
    ensures NeonJs.EventCall(Some("QuitGame"), Some(JObject(map[])), true).Sent?
    ensures MessageHandler.DecodeRequest(Some(NeonJs.EventCall(Some("QuitGame"), Some(JObject(map[])), true).request))
      == MessageHandler.Dispatch(MessageHandler.EventDelegate, "OnInvoke_QuitGame", map[])
  {
    NeonJs.SentEventCallDispatches(Some("QuitGame"), Some(JObject(map[])));
  }

  /// The message the Escape key and the B button send.
  function LogEvent(message: string): Action
  {
    SendEvent("LogMessage", JObject(map["message" := JString(message)]))
  }

  /// The pages an action navigates to.
  function NavigationsOf(action: Action): seq<string>
  {
    if action.Navigate? then [action.page] else []
  }

  /// The events an action passes to NEON.invokeUnrealEvent; none without window.NEON.
  function EventsOf(neonAvailable: bool, action: Action): seq<(string, Value)>
  {
    if action.SendEvent? && neonAvailable then [(action.name, action.params)] else []
  }

  class Menu {
    /// window.NEON is defined.
    const neonAvailable: bool
    var selectedIndex: nat
    var lastButtons: Buttons
    /// The pages navigated to, in order.
    var navigations: seq<string>
    /// The events passed to NEON.invokeUnrealEvent, in order.
    var events: seq<(string, Value)>

    predicate Valid()
      reads this`selectedIndex
    {
      selectedIndex < 4
    }

    constructor (neonAvailable: bool)
      ensures this.neonAvailable == neonAvailable
      ensures selectedIndex == 0 && lastButtons == Released && navigations == [] && events == []
      ensures Valid()
    {
      this.neonAvailable := neonAvailable;
      selectedIndex := 0;
      lastButtons := Released;
      navigations := [];
      events := [];
    }

    /// Runs an action; callUE5Event does nothing without window.NEON.
    method Perform(action: Action)
      modifies this`navigations, this`events
      ensures navigations == old(navigations) + NavigationsOf(action)
      ensures events == old(events) + EventsOf(neonAvailable, action)
    {
      match action
      case Navigate(page) =>
        navigations := navigations + [page];
      case SendEvent(name, params) =>
        if neonAvailable {
          events := events + [(name, params)];
        }
    }

    /// handleKeyDown: arrows, w/s and Tab move the selection, Enter and Space activate
    /// the selected item, Escape sends a log event.
    method HandleKeyDown(key: string, shiftKey: bool)
      requires Valid()
      modifies this`selectedIndex, this`lastButtons, this`navigations, this`events
      ensures Valid()
      ensures lastButtons == if selectedIndex != old(selectedIndex) then Released else old(lastButtons)
      ensures var prev := old(selectedIndex);
        selectedIndex == match KeyActionOf(key)
          case MoveUp => Up(Flags, prev)
          case MoveDown => Down(Flags, prev)
          case TabMove => if shiftKey then Up(Flags, prev) else Down(Flags, prev)
          case _ => prev
      ensures navigations == old(navigations) +
        if KeyActionOf(key) == Activate then NavigationsOf(Items[old(selectedIndex)].action) else []
      ensures events == old(events) + match KeyActionOf(key)
        case Activate => EventsOf(neonAvailable, Items[old(selectedIndex)].action)
        case Escape => EventsOf(neonAvailable, LogEvent("Escape pressed on main menu"))
        case _ => []
    {
      var start := selectedIndex;
      match KeyActionOf(key) {
      case MoveUp =>
        selectedIndex := SelectUp(Flags, selectedIndex);
        StepsStayInMenu(Flags, old(selectedIndex));
      case MoveDown =>
        selectedIndex := SelectDown(Flags, selectedIndex);
        StepsStayInMenu(Flags, old(selectedIndex));
      case Activate =>
        Perform(Items[selectedIndex].action);
      case Escape =>
        Perform(LogEvent("Escape pressed on main menu"));
      case TabMove =>
        selectedIndex := SelectTab(Flags, selectedIndex, shiftKey);
        StepsStayInMenu(Flags, old(selectedIndex));
      case NoAction =>
      }
      if selectedIndex != start {
        lastButtons := Released;
      }
    }

    /// checkGamepad: each button that has just gone down acts, as on the NEON menu.
    method CheckGamepad(pad: Option<Gamepad>)
      requires Valid()
      modifies this`selectedIndex, this`lastButtons, this`navigations, this`events
      ensures Valid()
      ensures pad.None? ==>
        (selectedIndex == old(selectedIndex) && lastButtons == old(lastButtons)
         && navigations == old(navigations) && events == old(events))
      ensures pad.Some? ==>
        (var fired := Rising(Pressed(pad.value), old(lastButtons));
         lastButtons == (if selectedIndex != old(selectedIndex) then Released else Pressed(pad.value))
         && selectedIndex == PollSelection(Flags, old(selectedIndex), fired)
         && navigations == old(navigations) + (if fired.a then NavigationsOf(Items[old(selectedIndex)].action) else [])
         && events == old(events)
           + (if fired.a then EventsOf(neonAvailable, Items[old(selectedIndex)].action) else [])
           + (if fired.b then EventsOf(neonAvailable, LogEvent("B button pressed on main menu")) else []))
    {
      if pad.None? {
        return;
      }
      var now := Pressed(pad.value);
      var fired := Rising(now, lastButtons);
      var start := selectedIndex;
      var next := MovePoll(Flags, start, fired);
      if fired.a {
        Perform(Items[start].action);
      }
      if fired.b {
        Perform(LogEvent("B button pressed on main menu"));
      }
      selectedIndex := next;
      lastButtons := if next != start then Released else now;
    }

    /// The gamepad effect set up again after a render for another reason (a render of the
    /// parent); a change of the selection already re-creates it.
    method Resubscribe()
      modifies this`lastButtons
      ensures lastButtons == Released
    {
      lastButtons := Released;
    }

    /// handleMouseEnter: the hovered item is selected.
    method MouseEnter(index: nat)
      requires index < 4
      modifies this`selectedIndex, this`lastButtons
      ensures selectedIndex == index && Valid()
      ensures lastButtons == if index != old(selectedIndex) then Released else old(lastButtons)
    {
      if index != selectedIndex {
        lastButtons := Released;
      }
      selectedIndex := index;
    }

    /// A click runs the item's action directly, with no disabled check.
    method Click(index: nat)
      requires index < 4
      modifies this`navigations, this`events
      ensures navigations == old(navigations) + NavigationsOf(Items[index].action)
      ensures events == old(events) + EventsOf(neonAvailable, Items[index].action)
    {
      Perform(Items[index].action);
    }
  }
}
