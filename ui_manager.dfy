/// The widget registry of the UI manager (UNohamUIManagerSubsystem): a map from widget
/// names to loaded widget classes, a cache of created widget instances, and the set of
/// names currently on the viewport, plus the input mode it puts the player controller in.
/// Names are compared as FString compares them, ignoring case, so every map and set is
/// keyed by the case-folded name. Loading a class, the world, creating a widget and the
/// presence of a player controller are engine services and enter as parameters.
module UIManager {
  import opened Wrappers
  import Text

  /// A loaded widget blueprint class, named by its asset path.
  datatype WidgetClass = WidgetClass(path: string)

  /// A created widget instance.
  datatype WidgetRef = WidgetRef(id: nat)

  /// The input mode last set on the player controller; the UI modes carry the widget
  /// given focus, if any.
  datatype ControllerInputMode =
    | Unset
    | UIOnly(focus: Option<WidgetRef>)
    | GameOnly
    | GameAndUI(focus: Option<WidgetRef>)

  /// A key of the registry: the case-folded form of some name.
  predicate IsKey(k: string)
  {
    Text.Lower(k) == k
  }

  class UIManagerSubsystem {
    var widgetClasses: map<string, WidgetClass>
    var activeWidgets: map<string, WidgetRef>
    var visibleWidgets: set<string>
    var controllerMode: ControllerInputMode
    var showMouseCursor: bool

    /// Every visible widget has a cached instance, and every visible name is a folded key.
    predicate Valid()
      reads this
    {
      visibleWidgets <= activeWidgets.Keys
      && (forall k :: k in visibleWidgets ==> IsKey(k))
    }

    constructor ()
      ensures widgetClasses == map[] && activeWidgets == map[] && visibleWidgets == {}
      ensures controllerMode == Unset && !showMouseCursor
      ensures Valid()
    {
      widgetClasses := map[];
      activeWidgets := map[];
      visibleWidgets := {};
      controllerMode := Unset;
      showMouseCursor := false;
    }

    /// Registers the class under the name only when it loaded (LoadClass is the parameter
    /// loaded); an earlier class under the same name is replaced.
    method RegisterWidgetClass(widgetName: string, loaded: Option<WidgetClass>)
      modifies this`widgetClasses
      ensures widgetClasses == if loaded.Some? then old(widgetClasses)[Text.Lower(widgetName) := loaded.value]
                               else old(widgetClasses)
    {
      if loaded.Some? {
        widgetClasses := widgetClasses[Text.Lower(widgetName) := loaded.value];
      }
    }

    /// The five built-in menus, each registered when its blueprint path loads (the load
    /// oracle maps a path to its class). Other entries keep their classes.
    method InitializeWidgetRegistry(load: map<string, WidgetClass>)
      modifies this`widgetClasses
      ensures widgetClasses.Keys == old(widgetClasses).Keys + LoadedBuiltInKeys(load)
      ensures forall k :: k in widgetClasses && k !in LoadedBuiltInKeys(load) ==> widgetClasses[k] == old(widgetClasses)[k]
      ensures forall i :: 0 <= i < |BuiltIns| && BuiltIns[i].1 in load ==>
        Text.Lower(BuiltIns[i].0) in widgetClasses && widgetClasses[Text.Lower(BuiltIns[i].0)] == load[BuiltIns[i].1]
    {
      ghost var base := widgetClasses;
      RegisterFirst(widgetClasses, load, BuiltIns[0]);
      RegisterNext(widgetClasses, load, 0);
      RegisterWidgetClass(BuiltIns[0].0, Loaded(load, BuiltIns[0].1));
      ghost var added := LoadedKey(load, BuiltIns[0]);
      RegisterExtends(widgetClasses, base, added, load, BuiltIns[1]);
      RegisterNext(widgetClasses, load, 1);
      RegisterWidgetClass(BuiltIns[1].0, Loaded(load, BuiltIns[1].1));
      added := added + LoadedKey(load, BuiltIns[1]);
      RegisterExtends(widgetClasses, base, added, load, BuiltIns[2]);
      RegisterNext(widgetClasses, load, 2);
      RegisterWidgetClass(BuiltIns[2].0, Loaded(load, BuiltIns[2].1));
      added := added + LoadedKey(load, BuiltIns[2]);
      RegisterExtends(widgetClasses, base, added, load, BuiltIns[3]);
      RegisterNext(widgetClasses, load, 3);
      RegisterWidgetClass(BuiltIns[3].0, Loaded(load, BuiltIns[3].1));
      added := added + LoadedKey(load, BuiltIns[3]);
      RegisterExtends(widgetClasses, base, added, load, BuiltIns[4]);
      RegisterNext(widgetClasses, load, 4);
      RegisterWidgetClass(BuiltIns[4].0, Loaded(load, BuiltIns[4].1));
      added := added + LoadedKey(load, BuiltIns[4]);
      assert BuiltInsRegistered(widgetClasses, load, |BuiltIns|);
    }

    /// Returns the cached instance if there is one, creating nothing. Otherwise a
    /// registered class, a world and a successful CreateWidget give a new instance that is
    /// cached under the name; any missing piece gives None and changes nothing.
    method GetWidget(widgetName: string, worldAvailable: bool, created: Option<WidgetRef>)
      returns (widget: Option<WidgetRef>)
      modifies this`activeWidgets
      ensures var key := Text.Lower(widgetName);
        if key in old(activeWidgets) then
          widget == Some(old(activeWidgets)[key]) && activeWidgets == old(activeWidgets)
        else if key in widgetClasses && worldAvailable && created.Some? then
          widget == created && activeWidgets == old(activeWidgets)[key := created.value]
        else
          widget.None? && activeWidgets == old(activeWidgets)
      ensures widget.Some? ==> Text.Lower(widgetName) in activeWidgets
                               && activeWidgets[Text.Lower(widgetName)] == widget.value
      ensures old(Valid()) ==> Valid()
    {
      var key := Text.Lower(widgetName);
      if key in activeWidgets {
        return Some(activeWidgets[key]);
      }
      if key !in widgetClasses {
        return None;
      }
      if !worldAvailable {
        return None;
      }
      if created.Some? {
        activeWidgets := activeWidgets[key := created.value];
      }
      return created;
    }

    /// Gets or creates the widget and puts its name on the viewport if it is not there
    /// yet; showing a visible widget again leaves the visible set as it is. On request the
    /// controller is switched to UI-only input focused on the widget.
    method ShowWidget(widgetName: string, setInputModeUI: bool, showCursor: bool, zOrder: int,
                      worldAvailable: bool, created: Option<WidgetRef>, hasPlayerController: bool)
      returns (widget: Option<WidgetRef>)
      modifies this`activeWidgets, this`visibleWidgets, this`controllerMode, this`showMouseCursor
      ensures var key := Text.Lower(widgetName);
        widget.None? <==> key !in old(activeWidgets) && !(key in widgetClasses && worldAvailable && created.Some?)
      ensures widget.None? ==> unchanged(this)
      ensures widget.Some? ==> var key := Text.Lower(widgetName);
                               visibleWidgets == old(visibleWidgets) + {key}
                               && key in activeWidgets && activeWidgets[key] == widget.value
                               && activeWidgets == if key in old(activeWidgets) then old(activeWidgets)
                                                   else old(activeWidgets)[key := widget.value]
      ensures widget.Some? && setInputModeUI && hasPlayerController ==>
                controllerMode == UIOnly(widget) && showMouseCursor == showCursor
      ensures widget.Some? && !(setInputModeUI && hasPlayerController) ==>
                controllerMode == old(controllerMode) && showMouseCursor == old(showMouseCursor)
      ensures old(Valid()) ==> Valid()
    {
      widget := GetWidget(widgetName, worldAvailable, created);
      if widget.None? {
        return None;
      }
      var key := Text.Lower(widgetName);
      Text.LowerIdempotent(widgetName);
      if key !in visibleWidgets {
        visibleWidgets := visibleWidgets + {key};
      }
      if setInputModeUI {
        SetInputModeUIOnly(widget, showCursor, hasPlayerController);
      }
    }

    /// Takes a visible widget off the viewport; with destroy its cached instance is also
    /// dropped. A name that is not visible is left alone.
    method HideWidget(widgetName: string, destroy: bool)
      modifies this`activeWidgets, this`visibleWidgets
      ensures var key := Text.Lower(widgetName);
        if key in old(visibleWidgets) && key in old(activeWidgets) then
          visibleWidgets == old(visibleWidgets) - {key}
          && activeWidgets == if destroy then old(activeWidgets) - {key} else old(activeWidgets)
        else
          visibleWidgets == old(visibleWidgets) && activeWidgets == old(activeWidgets)
      ensures old(Valid()) ==> Valid()
    {
      var key := Text.Lower(widgetName);
      if key !in visibleWidgets {
        return;
      }
      if key in activeWidgets {
        visibleWidgets := visibleWidgets - {key};
        if destroy {
          activeWidgets := activeWidgets - {key};
        }
      }
    }

    /// Hides every widget that was visible, in whatever order the set yields them. The
    /// visible set ends empty; the cache loses exactly the hidden widgets when destroy is
    /// set and is untouched otherwise.
    method HideAllWidgets(destroy: bool)
      requires Valid()
      modifies this`activeWidgets, this`visibleWidgets
      ensures visibleWidgets == {}
      ensures activeWidgets == if destroy then old(activeWidgets) - old(visibleWidgets) else old(activeWidgets)
      ensures Valid()
    {
      var widgetsToHide := visibleWidgets;
      while widgetsToHide != {}
        invariant Valid()
        invariant visibleWidgets == widgetsToHide
        invariant activeWidgets == if destroy then old(activeWidgets) - (old(visibleWidgets) - widgetsToHide)
                                   else old(activeWidgets)
        invariant widgetsToHide <= old(visibleWidgets)
        decreases widgetsToHide
      {
        var widgetName :| widgetName in widgetsToHide;
        HideWidget(widgetName, destroy);
        widgetsToHide := widgetsToHide - {widgetName};
      }
    }

    /// Membership of the folded name in the visible set.
    function IsWidgetVisible(widgetName: string): (visible: bool)
      reads this`visibleWidgets
      ensures visible <==> exists k :: k in visibleWidgets && Text.EqualsIgnoreCase(k, widgetName) && IsKey(k)
    {
      Text.LowerIdempotent(widgetName);
      Text.Lower(widgetName) in visibleWidgets
    }

    /// UI-only input with the given focus; nothing happens without a player controller.
    method SetInputModeUIOnly(widgetToFocus: Option<WidgetRef>, showCursor: bool, hasPlayerController: bool)
      modifies this`controllerMode, this`showMouseCursor
      ensures hasPlayerController ==> controllerMode == UIOnly(widgetToFocus) && showMouseCursor == showCursor
      ensures !hasPlayerController ==> controllerMode == old(controllerMode) && showMouseCursor == old(showMouseCursor)
    {
      if !hasPlayerController {
        return;
      }
      controllerMode := UIOnly(widgetToFocus);
      showMouseCursor := showCursor;
    }

    /// Game-only input; the cursor shows exactly when it is not asked to hide.
    method SetInputModeGameOnly(hideCursor: bool, hasPlayerController: bool)
      modifies this`controllerMode, this`showMouseCursor
      ensures hasPlayerController ==> controllerMode == GameOnly && showMouseCursor == !hideCursor
      ensures !hasPlayerController ==> controllerMode == old(controllerMode) && showMouseCursor == old(showMouseCursor)
    {
      if !hasPlayerController {
        return;
      }
      controllerMode := GameOnly;
      showMouseCursor := !hideCursor;
    }

    /// Game-and-UI input with the given focus; nothing happens without a player controller.
    method SetInputModeGameAndUI(widgetToFocus: Option<WidgetRef>, showCursor: bool, hasPlayerController: bool)
      modifies this`controllerMode, this`showMouseCursor
      ensures hasPlayerController ==> controllerMode == GameAndUI(widgetToFocus) && showMouseCursor == showCursor
      ensures !hasPlayerController ==> controllerMode == old(controllerMode) && showMouseCursor == old(showMouseCursor)
    {
      if !hasPlayerController {
        return;
      }
      controllerMode := GameAndUI(widgetToFocus);
      showMouseCursor := showCursor;
    }

    /// Hides every widget without destroying any, then game-only input with the cursor hidden.
    method ReturnToGame(hasPlayerController: bool)
      requires Valid()
      modifies this`activeWidgets, this`visibleWidgets, this`controllerMode, this`showMouseCursor
      ensures visibleWidgets == {} && activeWidgets == old(activeWidgets)
      ensures hasPlayerController ==> controllerMode == GameOnly && !showMouseCursor
      ensures !hasPlayerController ==> controllerMode == old(controllerMode) && showMouseCursor == old(showMouseCursor)
      ensures Valid()
    {
      HideAllWidgets(false);
      SetInputModeGameOnly(true, hasPlayerController);
    }
  }

  /// LoadClass on a path: the class if the path resolves.
  function Loaded(load: map<string, WidgetClass>, path: string): (c: Option<WidgetClass>)
    ensures c.Some? <==> path in load
  {
    if path in load then Some(load[path]) else None
  }

  /// The built-in widgets in registration order: the name and the blueprint path.
  const BuiltIns: seq<(string, string)> := [
    ("MainMenu", "/Game/Widgets/CoreMenuWidgets/WBP_MainMenu.WBP_MainMenu_C"),
    ("Settings", "/Game/Widgets/CoreMenuWidgets/WBP_Settings.WBP_Settings_C"),
    ("PauseMenu", "/Game/Widgets/CoreMenuWidgets/WBP_PauseMenu.WBP_PauseMenu_C"),
    ("HUD", "/Game/Widgets/WBP_HUD.WBP_HUD_C"),
    ("Developer", "/Game/Widgets/WBP_Developer.WBP_Developer_C")
  ]

  /// The folded name of a built-in widget, when its blueprint loads.
  function LoadedKey(load: map<string, WidgetClass>, entry: (string, string)): set<string>
  {
    if entry.1 in load then {Text.Lower(entry.0)} else {}
  }

  /// The folded names of the built-in widgets whose blueprint loads.
  function LoadedBuiltInKeys(load: map<string, WidgetClass>): set<string>
  {
    LoadedKey(load, BuiltIns[0]) + LoadedKey(load, BuiltIns[1]) + LoadedKey(load, BuiltIns[2])
    + LoadedKey(load, BuiltIns[3]) + LoadedKey(load, BuiltIns[4])
  }

  /// `classes` is `base` with classes registered under the keys `added` and nothing else.
  predicate ExtendsBy(classes: map<string, WidgetClass>, base: map<string, WidgetClass>, added: set<string>)
  {
    classes.Keys == base.Keys + added
    && forall k :: k in classes && k !in added ==> classes[k] == base[k]
  }

  /// Registering the first built-in widget extends the table by its loaded key.
  lemma RegisterFirst(classes: map<string, WidgetClass>, load: map<string, WidgetClass>, entry: (string, string))
    ensures var loaded := Loaded(load, entry.1);
      ExtendsBy(if loaded.Some? then classes[Text.Lower(entry.0) := loaded.value] else classes,
                classes, LoadedKey(load, entry))
  {
  }

  /// Registering one more built-in widget extends the table by its loaded key.
  lemma RegisterExtends(classes: map<string, WidgetClass>, base: map<string, WidgetClass>, added: set<string>,
                        load: map<string, WidgetClass>, entry: (string, string))
    requires ExtendsBy(classes, base, added)
    ensures var loaded := Loaded(load, entry.1);
      ExtendsBy(if loaded.Some? then classes[Text.Lower(entry.0) := loaded.value] else classes,
                base, added + LoadedKey(load, entry))
  {
  }

  /// The first n built-in widgets whose blueprint loads are registered with their class.
  predicate BuiltInsRegistered(classes: map<string, WidgetClass>, load: map<string, WidgetClass>, n: nat)
    requires n <= |BuiltIns|
  {
    forall i :: 0 <= i < n && BuiltIns[i].1 in load ==>
      Text.Lower(BuiltIns[i].0) in classes && classes[Text.Lower(BuiltIns[i].0)] == load[BuiltIns[i].1]
  }

  /// Registering the next built-in widget keeps the earlier ones: the folded names differ,
  /// so no registration overwrites another's class.
  lemma RegisterNext(classes: map<string, WidgetClass>, load: map<string, WidgetClass>, n: nat)
    requires n < |BuiltIns| && BuiltInsRegistered(classes, load, n)
    ensures var loaded := Loaded(load, BuiltIns[n].1);
      BuiltInsRegistered(if loaded.Some? then classes[Text.Lower(BuiltIns[n].0) := loaded.value] else classes,
                         load, n + 1)
  {
    BuiltInKeysDistinct();
  }

  /// The five names stay distinct once folded, so every blueprint that loads gets an
  /// entry of its own: with all five loading, an empty table ends with five classes.
  lemma BuiltInKeysDistinct()
    ensures forall i, j :: 0 <= i < j < |BuiltIns| ==> Text.Lower(BuiltIns[i].0) != Text.Lower(BuiltIns[j].0)
  {
    var keys := seq(5, i requires 0 <= i < 5 => Text.Lower(BuiltIns[i].0));
    assert keys[0][0] == 'm' && keys[1][0] == 's' && keys[2][0] == 'p' && keys[4][0] == 'd';
    assert |keys[0]| == 8 && |keys[1]| == 8 && |keys[2]| == 9 && |keys[3]| == 3 && |keys[4]| == 9;
  }
}
