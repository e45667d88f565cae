# Noham base project: verified model of the game-side logic and the NEON web bridge

The Noham base project is an Unreal Engine starter game. Its menus are web pages rendered by
an embedded browser (the NEON plugin, built on CEF). This project models in Dafny the
discrete logic underneath the engine glue:

- **Settings store** (`Settings`). The graphics, audio and input records and their validators.
  The per-field setters either reject a value or change one field. The in-memory backup and
  restore, the transactional import, and the defaults.
- **UI widget registry** (`UIManager`). The registered widget classes, the cache of created
  widgets and the visible set. The cache holds every visible widget.
- **Input-mode state machine** (`InputManager`). Four input modes, the 0.5 s debounce on
  automatic switching, the prompt table, and platform and initial-mode detection.
- **Character movement rules** (`Character`). The sprint gate, how the speed multipliers
  combine, the aim and crouch targets, look scaling, and focus notifications to interactables.
- **NEON bridge, engine side** (`MessageHandler`). The ordered validation of a page request
  with error codes 1-10, then dispatch, parameter marshalling and reply serialisation.
- **NEON bridge, script side** (`NeonWidget`). The JavaScript the engine runs in the page,
  string escaping with its read-back, URL resolution, CEF input-event translation and the
  frame counter.
- **NEON bridge, page side** (`NeonJs`). Building requests with delegate prefixes and the
  errors 101-103, settling the promise, and the callback registry for engine-to-page calls.
- **Debug overlay bridge** (`DebugBridge`). Request ids, pending callbacks, event handler
  lists and the replies simulated without an engine.
- **Menu navigation** (`MenuNavigation`, `MainMenu`, `ShadcnMenu`). Wrap-around selection
  that skips disabled items, and gamepad rising-edge detection. The NEON main menu and the
  shadcn main menu use both.

`Wrappers`, `Text` and `Json` hold shared pieces:

- `Option` and `Result`;
- ASCII case folding, which stands for the engine's case-insensitive string comparisons;
- decimal printing;
- the JSON value type.

Engine services are parameters. This covers widget creation, the player controller,
environment variables, the clock, the gamepad state and the engine's JSON conversion.
Values a delegate writes back are an oracle map. Callbacks and handlers are opaque
identifiers, and the model records that they are called and with what.

Paths below are relative to the repository root.

## Model

| member | source | states |
|---|---|---|
| Settings.WindowModeOf | Noham_Base_Proj_Cpp/Source/Noham_Base_Proj_Cpp/Public/Subsystems/Settings/NohamSettingsSubsystem.h:176-177 | a window-mode code is defined exactly for 0..2 (Fullscreen, Windowed, Borderless) and inverts the enum's code |
| Settings.QualityPresetOf | Noham_Base_Proj_Cpp/Source/Noham_Base_Proj_Cpp/Public/Subsystems/Settings/NohamSettingsSubsystem.h:195-196 | a quality preset code is defined exactly for 0..3 (Low..Epic) and inverts the enum's code |
| Settings.ValidateGraphicsSettings | Noham_Base_Proj_Cpp/Source/Noham_Base_Proj_Cpp/Private/Subsystems/Settings/NohamSettingsSubsystem.cpp:1016-1047 | accepts iff width >= 640, height >= 480, window mode 0..2, frame-rate limit 0 or >= 30, quality 0..3 |
| Settings.ValidateAudioSettings | Noham_Base_Proj_Cpp/Source/Noham_Base_Proj_Cpp/Private/Subsystems/Settings/NohamSettingsSubsystem.cpp:326-354 | accepts iff all four volumes lie in [0, 1] |
| Settings.ValidateInputSettings | Noham_Base_Proj_Cpp/Source/Noham_Base_Proj_Cpp/Private/Subsystems/Settings/NohamSettingsSubsystem.cpp:523-578 | accepts iff sensitivities are in [0.1, 5], ADS in [0.1, 1], dead zones in [0, 0.9], vibration intensity in [0, 1] |
| Settings.DefaultGraphicsSettings | Noham_Base_Proj_Cpp/Source/Noham_Base_Proj_Cpp/Public/Subsystems/Settings/NohamSettingsSubsystem.h:19-31 | the default record is 1920x1080, fullscreen, VSync on, unlimited frame rate, Epic, and the validator accepts it |
| Settings.DefaultAudioSettings | Noham_Base_Proj_Cpp/Source/Noham_Base_Proj_Cpp/Public/Subsystems/Settings/NohamSettingsSubsystem.h:56-73 | the default volumes 1.0/0.8/1.0/1.0 are accepted; muting is a volume of 0 |
| Settings.DefaultInputSettings | Noham_Base_Proj_Cpp/Source/Noham_Base_Proj_Cpp/Public/Subsystems/Settings/NohamSettingsSubsystem.h:89-123 | mouse and gamepad sensitivities 1.0, ADS 0.5, no inversion, dead zones 0.25, vibration on at intensity 1.0, and the validator accepts it |
| Settings.FindAudioDevice | Noham_Base_Proj_Cpp/Source/Noham_Base_Proj_Cpp/Private/Subsystems/Settings/NohamSettingsSubsystem.cpp:291-317 | the device search finds iff some cached device id equals the id, ignoring case |
| Settings.ImportKeepsValid | Noham_Base_Proj_Cpp/Source/Noham_Base_Proj_Cpp/Private/Subsystems/Settings/NohamSettingsSubsystem.cpp:904-991 | applying only sections that pass their validators keeps the records valid |
| Settings.ImportOutcomeValid | Noham_Base_Proj_Cpp/Source/Noham_Base_Proj_Cpp/Private/Subsystems/Settings/NohamSettingsSubsystem.cpp:903-991 | whether an import applies its sections or restores the backup, valid records stay valid |
| Settings.SettingsSubsystem.constructor | Noham_Base_Proj_Cpp/Source/Noham_Base_Proj_Cpp/Public/Subsystems/Settings/NohamSettingsSubsystem.h:455 | a fresh store holds the struct defaults and no backup |
| Settings.SettingsSubsystem.UpdateGraphicsSettings | Noham_Base_Proj_Cpp/Source/Noham_Base_Proj_Cpp/Private/Subsystems/Settings/NohamSettingsSubsystem.cpp:74-90 | replaces the graphics record iff the validator accepts it; otherwise nothing changes |
| Settings.SettingsSubsystem.UpdateAudioSettings | Noham_Base_Proj_Cpp/Source/Noham_Base_Proj_Cpp/Private/Subsystems/Settings/NohamSettingsSubsystem.cpp:212-228 | replaces the audio record iff the validator accepts it; otherwise nothing changes |
| Settings.SettingsSubsystem.UpdateInputSettings | Noham_Base_Proj_Cpp/Source/Noham_Base_Proj_Cpp/Private/Subsystems/Settings/NohamSettingsSubsystem.cpp:358-374 | replaces the input record iff the validator accepts it; otherwise nothing changes |
| Settings.SettingsSubsystem.SetResolution | Noham_Base_Proj_Cpp/Source/Noham_Base_Proj_Cpp/Private/Subsystems/Settings/NohamSettingsSubsystem.cpp:92-112 | succeeds iff the size is at least 640x480, changing only the resolution; on failure nothing changes |
| Settings.SettingsSubsystem.SetWindowMode | Noham_Base_Proj_Cpp/Source/Noham_Base_Proj_Cpp/Private/Subsystems/Settings/NohamSettingsSubsystem.cpp:114-142 | succeeds iff the mode is 0..2, changing only the window mode |
| Settings.SettingsSubsystem.SetVSync | Noham_Base_Proj_Cpp/Source/Noham_Base_Proj_Cpp/Private/Subsystems/Settings/NohamSettingsSubsystem.cpp:144-158 | changes only the VSync flag |
| Settings.SettingsSubsystem.SetFrameRateLimit | Noham_Base_Proj_Cpp/Source/Noham_Base_Proj_Cpp/Private/Subsystems/Settings/NohamSettingsSubsystem.cpp:160-180 | succeeds iff the limit is 0 or at least 30, changing only the limit |
| Settings.SettingsSubsystem.SetQualityPreset | Noham_Base_Proj_Cpp/Source/Noham_Base_Proj_Cpp/Private/Subsystems/Settings/NohamSettingsSubsystem.cpp:182-202 | succeeds iff the preset is 0..3, changing only the preset |
| Settings.SettingsSubsystem.SetMasterVolume | Noham_Base_Proj_Cpp/Source/Noham_Base_Proj_Cpp/Private/Subsystems/Settings/NohamSettingsSubsystem.cpp:230-243 | succeeds iff the volume is in [0, 1], changing only the master volume |
| Settings.SettingsSubsystem.SetMusicVolume | Noham_Base_Proj_Cpp/Source/Noham_Base_Proj_Cpp/Private/Subsystems/Settings/NohamSettingsSubsystem.cpp:245-258 | succeeds iff the volume is in [0, 1], changing only the music volume |
| Settings.SettingsSubsystem.SetSFXVolume | Noham_Base_Proj_Cpp/Source/Noham_Base_Proj_Cpp/Private/Subsystems/Settings/NohamSettingsSubsystem.cpp:260-273 | succeeds iff the volume is in [0, 1], changing only the effects volume |
| Settings.SettingsSubsystem.SetVoiceVolume | Noham_Base_Proj_Cpp/Source/Noham_Base_Proj_Cpp/Private/Subsystems/Settings/NohamSettingsSubsystem.cpp:275-288 | succeeds iff the volume is in [0, 1], changing only the voice volume |
| Settings.SettingsSubsystem.SetAudioDevice | Noham_Base_Proj_Cpp/Source/Noham_Base_Proj_Cpp/Private/Subsystems/Settings/NohamSettingsSubsystem.cpp:291-317 | succeeds iff the id is empty or names a cached device; only the selected device changes |
| Settings.SettingsSubsystem.SetMouseSensitivityX | Noham_Base_Proj_Cpp/Source/Noham_Base_Proj_Cpp/Private/Subsystems/Settings/NohamSettingsSubsystem.cpp:376-389 | succeeds iff the value is in [0.1, 5], changing only that field |
| Settings.SettingsSubsystem.SetMouseSensitivityY | Noham_Base_Proj_Cpp/Source/Noham_Base_Proj_Cpp/Private/Subsystems/Settings/NohamSettingsSubsystem.cpp:391-404 | succeeds iff the value is in [0.1, 5], changing only that field |
| Settings.SettingsSubsystem.SetADSSensitivityMultiplier | Noham_Base_Proj_Cpp/Source/Noham_Base_Proj_Cpp/Private/Subsystems/Settings/NohamSettingsSubsystem.cpp:406-419 | succeeds iff the value is in [0.1, 1], changing only that field |
| Settings.SettingsSubsystem.SetInvertMouseY | Noham_Base_Proj_Cpp/Source/Noham_Base_Proj_Cpp/Private/Subsystems/Settings/NohamSettingsSubsystem.cpp:421-428 | changes only the mouse inversion flag |
| Settings.SettingsSubsystem.SetGamepadSensitivityX | Noham_Base_Proj_Cpp/Source/Noham_Base_Proj_Cpp/Private/Subsystems/Settings/NohamSettingsSubsystem.cpp:430-443 | succeeds iff the value is in [0.1, 5], changing only that field |
| Settings.SettingsSubsystem.SetGamepadSensitivityY | Noham_Base_Proj_Cpp/Source/Noham_Base_Proj_Cpp/Private/Subsystems/Settings/NohamSettingsSubsystem.cpp:445-458 | succeeds iff the value is in [0.1, 5], changing only that field |
| Settings.SettingsSubsystem.SetInvertGamepadY | Noham_Base_Proj_Cpp/Source/Noham_Base_Proj_Cpp/Private/Subsystems/Settings/NohamSettingsSubsystem.cpp:460-467 | changes only the gamepad inversion flag |
| Settings.SettingsSubsystem.SetLeftStickDeadZone | Noham_Base_Proj_Cpp/Source/Noham_Base_Proj_Cpp/Private/Subsystems/Settings/NohamSettingsSubsystem.cpp:469-482 | succeeds iff the value is in [0, 0.9], changing only that field |
| Settings.SettingsSubsystem.SetRightStickDeadZone | Noham_Base_Proj_Cpp/Source/Noham_Base_Proj_Cpp/Private/Subsystems/Settings/NohamSettingsSubsystem.cpp:484-497 | succeeds iff the value is in [0, 0.9], changing only that field |
| Settings.SettingsSubsystem.SetEnableVibration | Noham_Base_Proj_Cpp/Source/Noham_Base_Proj_Cpp/Private/Subsystems/Settings/NohamSettingsSubsystem.cpp:499-506 | changes only the vibration flag |
| Settings.SettingsSubsystem.SetVibrationIntensity | Noham_Base_Proj_Cpp/Source/Noham_Base_Proj_Cpp/Private/Subsystems/Settings/NohamSettingsSubsystem.cpp:508-521 | succeeds iff the value is in [0, 1], changing only that field |
| Settings.SettingsSubsystem.LoadDefaultSettings | Noham_Base_Proj_Cpp/Source/Noham_Base_Proj_Cpp/Private/Subsystems/Settings/NohamSettingsSubsystem.cpp:1133-1163 | the records become the defaults with device "default" selected, and all three are valid |
| Settings.SettingsSubsystem.ResetToDefaults | Noham_Base_Proj_Cpp/Source/Noham_Base_Proj_Cpp/Private/Subsystems/Settings/NohamSettingsSubsystem.cpp:723-732 | the records become the loaded defaults, which are valid |
| Settings.SettingsSubsystem.RefreshAudioDevices | Noham_Base_Proj_Cpp/Source/Noham_Base_Proj_Cpp/Private/Subsystems/Settings/NohamSettingsSubsystem.cpp:1116-1131 | the device list becomes exactly the one default device |
| Settings.SettingsSubsystem.BackupSettings | Noham_Base_Proj_Cpp/Source/Noham_Base_Proj_Cpp/Private/Subsystems/Settings/NohamSettingsSubsystem.cpp:734-791 | always succeeds; a backup exists and equals the three current records |
| Settings.SettingsSubsystem.RestoreFromBackup | Noham_Base_Proj_Cpp/Source/Noham_Base_Proj_Cpp/Private/Subsystems/Settings/NohamSettingsSubsystem.cpp:793-812 | fails with nothing changed when there is no backup; otherwise the records become the backup |
| Settings.SettingsSubsystem.HasBackup | Noham_Base_Proj_Cpp/Source/Noham_Base_Proj_Cpp/Private/Subsystems/Settings/NohamSettingsSubsystem.cpp:814-817 | true iff a backup is held in memory or a backup file exists |
| Settings.SettingsSubsystem.ApplyPendingSettings | Noham_Base_Proj_Cpp/Source/Noham_Base_Proj_Cpp/Private/Subsystems/Settings/NohamSettingsSubsystem.cpp:994-1009 | backs up the current records and succeeds |
| Settings.SettingsSubsystem.RevertSettings | Noham_Base_Proj_Cpp/Source/Noham_Base_Proj_Cpp/Private/Subsystems/Settings/NohamSettingsSubsystem.cpp:1011-1014 | behaves as restoring from the backup |
| Settings.SettingsSubsystem.ImportGraphicsSection | Noham_Base_Proj_Cpp/Source/Noham_Base_Proj_Cpp/Private/Subsystems/Settings/NohamSettingsSubsystem.cpp:908-929 | a present graphics section replaces the record iff it passes the validator, and fails the import otherwise; an absent one changes nothing |
| Settings.SettingsSubsystem.ImportAudioSection | Noham_Base_Proj_Cpp/Source/Noham_Base_Proj_Cpp/Private/Subsystems/Settings/NohamSettingsSubsystem.cpp:931-952 | a present audio section replaces the record iff it passes the validator, and fails the import otherwise; an absent one changes nothing |
| Settings.SettingsSubsystem.ImportInputSection | Noham_Base_Proj_Cpp/Source/Noham_Base_Proj_Cpp/Private/Subsystems/Settings/NohamSettingsSubsystem.cpp:954-975 | a present input section replaces the record iff it passes the validator, and fails the import otherwise; an absent one changes nothing |
| Settings.SettingsSubsystem.ImportSettings | Noham_Base_Proj_Cpp/Source/Noham_Base_Proj_Cpp/Private/Subsystems/Settings/NohamSettingsSubsystem.cpp:880-992 | succeeds iff the file is readable and every present section is valid; on success present sections replace the records, and on any failure the records are as before; valid settings stay valid |
| UIManager.BuiltInKeysDistinct | Noham_Base_Proj_Cpp/Source/Noham_Base_Proj_Cpp/Private/Subsystems/UI/NohamUIManagerSubsystem.cpp:37-41 | the five built-in names stay distinct once case-folded, so each loaded blueprint gets its own entry |
| UIManager.RegisterNext | Noham_Base_Proj_Cpp/Source/Noham_Base_Proj_Cpp/Private/Subsystems/UI/NohamUIManagerSubsystem.cpp:37-41 | registering the next built-in widget keeps the classes of the earlier ones |
| UIManager.UIManagerSubsystem.constructor | Noham_Base_Proj_Cpp/Source/Noham_Base_Proj_Cpp/Public/Subsystems/UI/NohamUIManagerSubsystem.h:122-137 | the registry, cache and visible set start empty, which satisfies the cache-holds-visible invariant |
| UIManager.UIManagerSubsystem.RegisterWidgetClass | Noham_Base_Proj_Cpp/Source/Noham_Base_Proj_Cpp/Private/Subsystems/UI/NohamUIManagerSubsystem.cpp:46-59 | adds or overwrites an entry only when the class loaded; otherwise the registry is unchanged |
| UIManager.UIManagerSubsystem.InitializeWidgetRegistry | Noham_Base_Proj_Cpp/Source/Noham_Base_Proj_Cpp/Private/Subsystems/UI/NohamUIManagerSubsystem.cpp:32-44 | registers exactly the built-in widgets whose blueprint loads, each under its case-folded name with its own loaded class; other entries keep their classes |
| UIManager.UIManagerSubsystem.GetWidget | Noham_Base_Proj_Cpp/Source/Noham_Base_Proj_Cpp/Private/Subsystems/UI/NohamUIManagerSubsystem.cpp:135-171 | a cached widget is returned without creating anything; otherwise a registered class is instantiated and cached; an unknown name gives nothing and changes nothing |
| UIManager.UIManagerSubsystem.ShowWidget | Noham_Base_Proj_Cpp/Source/Noham_Base_Proj_Cpp/Private/Subsystems/UI/NohamUIManagerSubsystem.cpp:61-92 | with no widget nothing changes; otherwise the name is visible (a second show changes nothing) and the cache still holds every visible name |
| UIManager.UIManagerSubsystem.HideWidget | Noham_Base_Proj_Cpp/Source/Noham_Base_Proj_Cpp/Private/Subsystems/UI/NohamUIManagerSubsystem.cpp:94-115 | a hidden name is a no-op; a visible one leaves the visible set, and leaves the cache only when destroying |
| UIManager.UIManagerSubsystem.HideAllWidgets | Noham_Base_Proj_Cpp/Source/Noham_Base_Proj_Cpp/Private/Subsystems/UI/NohamUIManagerSubsystem.cpp:117-128 | nothing stays visible; the cache loses exactly the visible widgets when destroying and is unchanged otherwise |
| UIManager.UIManagerSubsystem.IsWidgetVisible | Noham_Base_Proj_Cpp/Source/Noham_Base_Proj_Cpp/Private/Subsystems/UI/NohamUIManagerSubsystem.cpp:130-133 | true iff the visible set holds the name, compared ignoring case |
| UIManager.UIManagerSubsystem.SetInputModeUIOnly | Noham_Base_Proj_Cpp/Source/Noham_Base_Proj_Cpp/Private/Subsystems/UI/NohamUIManagerSubsystem.cpp:173-192 | with a player controller, UI-only input focused on the widget and the requested cursor; without one nothing changes |
| UIManager.UIManagerSubsystem.SetInputModeGameOnly | Noham_Base_Proj_Cpp/Source/Noham_Base_Proj_Cpp/Private/Subsystems/UI/NohamUIManagerSubsystem.cpp:194-207 | with a player controller, game-only input and the cursor hidden as asked; without one nothing changes |
| UIManager.UIManagerSubsystem.SetInputModeGameAndUI | Noham_Base_Proj_Cpp/Source/Noham_Base_Proj_Cpp/Private/Subsystems/UI/NohamUIManagerSubsystem.cpp:209-228 | with a player controller, game-and-UI input and the requested cursor; without one nothing changes |
| UIManager.UIManagerSubsystem.ReturnToGame | Noham_Base_Proj_Cpp/Source/Noham_Base_Proj_Cpp/Private/Subsystems/UI/NohamUIManagerSubsystem.cpp:250-254 | hides every widget without destroying any, then game-only input with the cursor hidden |
| InputManager.InputModeCode | Noham_Base_Proj_Cpp/Source/Noham_Base_Proj_Cpp/Public/Subsystems/Input/NohamInputManagerSubsystem.h:14-20 | exactly four modes, coded 0..3 in declaration order |
| InputManager.Prompt | Noham_Base_Proj_Cpp/Source/Noham_Base_Proj_Cpp/Public/Subsystems/Input/NohamInputManagerSubsystem.h:33-45 | prompt data carries the two texts and empty icon paths |
| InputManager.PromptText | Noham_Base_Proj_Cpp/Source/Noham_Base_Proj_Cpp/Private/Subsystems/Input/NohamInputManagerSubsystem.cpp:54-80 | an unregistered action gives its own name; a registered one gives the keyboard text, the gamepad text for Gamepad and SteamDeck, or "Tap" for Touch |
| InputManager.PromptIconPath | Noham_Base_Proj_Cpp/Source/Noham_Base_Proj_Cpp/Private/Subsystems/Input/NohamInputManagerSubsystem.cpp:82-103 | an unregistered action gives ""; Touch falls back to the keyboard icon |
| InputManager.AutoSwitchTarget | Noham_Base_Proj_Cpp/Source/Noham_Base_Proj_Cpp/Private/Subsystems/Input/NohamInputManagerSubsystem.cpp:121-123 | gamepad input targets SteamDeck on a Steam Deck and Gamepad otherwise; other input targets KeyboardMouse |
| InputManager.NotifyStep | Noham_Base_Proj_Cpp/Source/Noham_Base_Proj_Cpp/Private/Subsystems/Input/NohamInputManagerSubsystem.cpp:111-133 | input within 0.5 s of the last change changes nothing; a change goes to the target mode and stamps the time; no change keeps the state |
| InputManager.SwitchesAreDebounced | Noham_Base_Proj_Cpp/Source/Noham_Base_Proj_Cpp/Private/Subsystems/Input/NohamInputManagerSubsystem.cpp:113-132 | over any input sequence, successive automatic mode changes are at least 0.5 s apart |
| InputManager.NotifyStepSettles | Noham_Base_Proj_Cpp/Source/Noham_Base_Proj_Cpp/Private/Subsystems/Input/NohamInputManagerSubsystem.cpp:111-133 | repeating the same input after a switch changes nothing |
| InputManager.DetectSteamDeck | Noham_Base_Proj_Cpp/Source/Noham_Base_Proj_Cpp/Private/Subsystems/Input/NohamInputManagerSubsystem.cpp:135-148 | Steam Deck iff SteamDeck=="1", or the make and model contain both "Valve" and "Jupiter" |
| InputManager.InitialInputMode | Noham_Base_Proj_Cpp/Source/Noham_Base_Proj_Cpp/Private/Subsystems/Input/NohamInputManagerSubsystem.cpp:150-167 | priority SteamDeck, then an attached gamepad, then KeyboardMouse |
| InputManager.IsGamepadConnected | Noham_Base_Proj_Cpp/Source/Noham_Base_Proj_Cpp/Private/Subsystems/Input/NohamInputManagerSubsystem.cpp:34-42 | connected only with Slate initialised, and then iff a gamepad is attached |
| InputManager.DefaultPromptRegistry | Noham_Base_Proj_Cpp/Source/Noham_Base_Proj_Cpp/Private/Subsystems/Input/NohamInputManagerSubsystem.cpp:169-233 | the eight default actions and their keyboard and gamepad texts, keyed by folded name; RegisterDefaultPrompts adds them |
| InputManager.DefaultPromptRegistrySize | Noham_Base_Proj_Cpp/Source/Noham_Base_Proj_Cpp/Private/Subsystems/Input/NohamInputManagerSubsystem.cpp:169-236 | the default prompt table has exactly eight actions |
| InputManager.InputManagerSubsystem.constructor | Noham_Base_Proj_Cpp/Source/Noham_Base_Proj_Cpp/Public/Subsystems/Input/NohamInputManagerSubsystem.h:137-154 | starts in KeyboardMouse, not a Steam Deck, last change at 0, with an empty prompt table |
| InputManager.InputManagerSubsystem.Initialize | Noham_Base_Proj_Cpp/Source/Noham_Base_Proj_Cpp/Private/Subsystems/Input/NohamInputManagerSubsystem.cpp:8-26 | detects the platform, then the initial mode, then registers the default prompts |
| InputManager.InputManagerSubsystem.SetInputMode | Noham_Base_Proj_Cpp/Source/Noham_Base_Proj_Cpp/Private/Subsystems/Input/NohamInputManagerSubsystem.cpp:44-52 | sets the mode and broadcasts only when it differs; the change time is untouched |
| InputManager.InputManagerSubsystem.GetInputPrompt | Noham_Base_Proj_Cpp/Source/Noham_Base_Proj_Cpp/Private/Subsystems/Input/NohamInputManagerSubsystem.cpp:54-80 | the prompt text for the current mode, as PromptText states |
| InputManager.InputManagerSubsystem.GetInputPromptIconPath | Noham_Base_Proj_Cpp/Source/Noham_Base_Proj_Cpp/Private/Subsystems/Input/NohamInputManagerSubsystem.cpp:82-103 | the icon path for the current mode, as PromptIconPath states |
| InputManager.InputManagerSubsystem.RegisterInputPrompt | Noham_Base_Proj_Cpp/Source/Noham_Base_Proj_Cpp/Private/Subsystems/Input/NohamInputManagerSubsystem.cpp:105-109 | inserts or overwrites the entry for the action |
| InputManager.InputManagerSubsystem.NotifyInputReceived | Noham_Base_Proj_Cpp/Source/Noham_Base_Proj_Cpp/Private/Subsystems/Input/NohamInputManagerSubsystem.cpp:111-133 | the state follows NotifyStep, and a broadcast is made exactly when the mode changes |
| InputManager.InputManagerSubsystem.DetectPlatform | Noham_Base_Proj_Cpp/Source/Noham_Base_Proj_Cpp/Private/Subsystems/Input/NohamInputManagerSubsystem.cpp:135-148 | the Steam Deck flag is DetectSteamDeck's verdict |
| InputManager.InputManagerSubsystem.DetectInitialInputMode | Noham_Base_Proj_Cpp/Source/Noham_Base_Proj_Cpp/Private/Subsystems/Input/NohamInputManagerSubsystem.cpp:150-167 | the mode becomes InitialInputMode's choice |
| InputManager.InputManagerSubsystem.RegisterDefaultPrompts | Noham_Base_Proj_Cpp/Source/Noham_Base_Proj_Cpp/Private/Subsystems/Input/NohamInputManagerSubsystem.cpp:169-236 | the eight default prompts are added over the table |
| Character.Clamp | Noham_Base_Proj_Cpp/Source/Noham_Base_Proj_Cpp/Private/Components/Characters/NohamCharacter.cpp:346-358 | the result lies in the range, equals an in-range input, and is the nearer bound otherwise |
| Character.SprintAllowed | Noham_Base_Proj_Cpp/Source/Noham_Base_Proj_Cpp/Private/Components/Characters/NohamCharacter.cpp:480-508 | sprinting is allowed iff not crouched, not aiming unless allowed, and not falling |
| Character.SpeedMultiplier | Noham_Base_Proj_Cpp/Source/Noham_Base_Proj_Cpp/Private/Components/Characters/NohamCharacter.cpp:446-477 | the base multiplier times the crouch, ADS and sprint multipliers of the active states; WalkSpeedBounds bounds it |
| Character.WalkSpeedBounds | Noham_Base_Proj_Cpp/Source/Noham_Base_Proj_Cpp/Private/Components/Characters/NohamCharacter.cpp:446-477 | with multipliers in their editor ranges, for every combination of crouch, aim and sprint, the walk speed stays between 0.6 and 9000 |
| Character.FocusNotifications | Noham_Base_Proj_Cpp/Source/Noham_Base_Proj_Cpp/Private/Components/Characters/NohamCharacter.cpp:608-629 | FocusLost to the previous actor iff it exists, changed and is interactable; FocusGained to the new one likewise; nothing when focus is unchanged |
| Character.LookScale | Noham_Base_Proj_Cpp/Source/Noham_Base_Proj_Cpp/Private/Components/Characters/NohamCharacter.cpp:209-225 | without settings the sensitivity is 1 and pitch is negated; with settings the sensitivities apply, inversion flips the sign, and ADS scales both axes only while aiming |
| Character.NohamCharacter.constructor | Noham_Base_Proj_Cpp/Source/Noham_Base_Proj_Cpp/Public/Components/Characters/NohamCharacter.h:107-224 | the initial multipliers, field of view 90, capsule half-heights 96, and no sprint, aim or focus |
| Character.NohamCharacter.CanSprint | Noham_Base_Proj_Cpp/Source/Noham_Base_Proj_Cpp/Private/Components/Characters/NohamCharacter.cpp:480-508 | the sprint gate on the current state |
| Character.NohamCharacter.IsSprinting | Noham_Base_Proj_Cpp/Source/Noham_Base_Proj_Cpp/Public/Components/Characters/NohamCharacter.h:260 | sprinting iff the character wants to sprint and may |
| Character.NohamCharacter.HasInteractableInFocus | Noham_Base_Proj_Cpp/Source/Noham_Base_Proj_Cpp/Public/Components/Characters/NohamCharacter.h:280 | true iff an actor is in focus |
| Character.NohamCharacter.GetMouseSensitivityX | Noham_Base_Proj_Cpp/Source/Noham_Base_Proj_Cpp/Private/Components/Characters/NohamCharacter.cpp:319-326 | the setting's value, or 1 without settings |
| Character.NohamCharacter.GetMouseSensitivityY | Noham_Base_Proj_Cpp/Source/Noham_Base_Proj_Cpp/Private/Components/Characters/NohamCharacter.cpp:328-335 | the setting's value, or 1 without settings |
| Character.NohamCharacter.ShouldInvertMouseY | Noham_Base_Proj_Cpp/Source/Noham_Base_Proj_Cpp/Private/Components/Characters/NohamCharacter.cpp:337-344 | the setting's flag, or false without settings |
| Character.NohamCharacter.Look | Noham_Base_Proj_Cpp/Source/Noham_Base_Proj_Cpp/Private/Components/Characters/NohamCharacter.cpp:196-239 | without a controller nothing happens; with one the input is stored and scaled as LookScale states |
| Character.NohamCharacter.Move | Noham_Base_Proj_Cpp/Source/Noham_Base_Proj_Cpp/Private/Components/Characters/NohamCharacter.cpp:175-194 | with a controller and movement component the walk speed becomes 600 times the plain multiplier |
| Character.NohamCharacter.SetMovementSpeedMultiplier | Noham_Base_Proj_Cpp/Source/Noham_Base_Proj_Cpp/Private/Components/Characters/NohamCharacter.cpp:346-358 | stores the multiplier clamped to [0.1, 5] and sets the walk speed to 600 times it |
| Character.NohamCharacter.StartCrouch | Noham_Base_Proj_Cpp/Source/Noham_Base_Proj_Cpp/Private/Components/Characters/NohamCharacter.cpp:361-366 | a crouch is requested and the capsule target is the crouched half-height |
| Character.NohamCharacter.StopCrouch | Noham_Base_Proj_Cpp/Source/Noham_Base_Proj_Cpp/Private/Components/Characters/NohamCharacter.cpp:368-373 | standing is requested and the capsule target is the standing half-height |
| Character.NohamCharacter.StartSprint | Noham_Base_Proj_Cpp/Source/Noham_Base_Proj_Cpp/Private/Components/Characters/NohamCharacter.cpp:376-380 | the character wants to sprint |
| Character.NohamCharacter.StopSprint | Noham_Base_Proj_Cpp/Source/Noham_Base_Proj_Cpp/Private/Components/Characters/NohamCharacter.cpp:382-386 | the character no longer wants to sprint, so it is not sprinting |
| Character.NohamCharacter.StartAim | Noham_Base_Proj_Cpp/Source/Noham_Base_Proj_Cpp/Private/Components/Characters/NohamCharacter.cpp:389-394 | aiming, with the target field of view narrowed by the ADS multiplier |
| Character.NohamCharacter.StopAim | Noham_Base_Proj_Cpp/Source/Noham_Base_Proj_Cpp/Private/Components/Characters/NohamCharacter.cpp:396-401 | not aiming, with the default target field of view |
| Character.NohamCharacter.GetMovementSpeedMultiplier | Noham_Base_Proj_Cpp/Source/Noham_Base_Proj_Cpp/Public/Components/Characters/NohamCharacter.h:256 | returns the stored base multiplier; SetMovementSpeedMultiplier states the range it is kept in |
| Character.NohamCharacter.UpdateMovementSpeed | Noham_Base_Proj_Cpp/Source/Noham_Base_Proj_Cpp/Private/Components/Characters/NohamCharacter.cpp:446-477 | the walk speed is 600 times the base multiplier times the crouch, ADS and sprint multipliers that apply |
| Character.NohamCharacter.Interact | Noham_Base_Proj_Cpp/Source/Noham_Base_Proj_Cpp/Private/Components/Characters/NohamCharacter.cpp:511-533 | OnInteract goes to a focused interactable; with nothing in focus nothing happens |
| Character.NohamCharacter.UpdateInteraction | Noham_Base_Proj_Cpp/Source/Noham_Base_Proj_Cpp/Private/Components/Characters/NohamCharacter.cpp:536-547 | the old focus becomes the last one, the traced actor is in focus, and the change is notified |
| Character.NohamCharacter.NotifyInteractableFocusChanged | Noham_Base_Proj_Cpp/Source/Noham_Base_Proj_Cpp/Private/Components/Characters/NohamCharacter.cpp:608-629 | appends the focus notifications from the last to the current actor |
| MessageHandler.Code | Noham_Base_Proj_Cpp/Plugins/NEON/Source/NEON/Public/NEONMessageHandler.h:24-37 | each error has a code from 0 to 10, and reading the code back gives the error |
| MessageHandler.CodeToError | Noham_Base_Proj_Cpp/Plugins/NEON/Source/NEON/Public/NEONMessageHandler.h:24-37 | a number names an error iff it is 0..10 |
| MessageHandler.ErrorMessage | Noham_Base_Proj_Cpp/Plugins/NEON/Source/NEON/Private/NEONMessageHandler.cpp:17-44 | a fixed text per code; "Unknown error" only for the unknown code |
| MessageHandler.ErrorMessageInjective | Noham_Base_Proj_Cpp/Plugins/NEON/Source/NEON/Private/NEONMessageHandler.cpp:17-44 | no two codes share a message |
| MessageHandler.MissingParameterFailure | Noham_Base_Proj_Cpp/Plugins/NEON/Source/NEON/Private/NEONMessageHandler.cpp:159-170 | failure 10 whose message is "Missing parameter: " followed by the name |
| MessageHandler.DecodeRequest | Noham_Base_Proj_Cpp/Plugins/NEON/Source/NEON/Private/NEONMessageHandler.cpp:69-134 | the first failing check decides: unparseable 1, no type 2, unknown type 3, no delegate 4, no parameters object 5; otherwise dispatch with the type, delegate and parameters |
| MessageHandler.InputParams | Noham_Base_Proj_Cpp/Plugins/NEON/Source/NEON/Private/NEONMessageHandler.cpp:145-153 | a parameter is kept iff it is one the page supplies (an input); its Append lemma states that the order is kept |
| MessageHandler.PureOutParams | Noham_Base_Proj_Cpp/Plugins/NEON/Source/NEON/Private/NEONMessageHandler.cpp:420-427 | a parameter is kept iff it is an out-parameter not passed by reference; its Append lemma states that the order is kept |
| MessageHandler.InputParamsAppend | Noham_Base_Proj_Cpp/Plugins/NEON/Source/NEON/Private/NEONMessageHandler.cpp:145-153 | InputParams distributes over concatenation and keeps a single parameter iff it is an input, so it is the in-order subsequence of the inputs |
| MessageHandler.PureOutParamsAppend | Noham_Base_Proj_Cpp/Plugins/NEON/Source/NEON/Private/NEONMessageHandler.cpp:420-427 | PureOutParams distributes over concatenation and keeps a single parameter iff it is a pure out-parameter, so it is the in-order subsequence of those |
| MessageHandler.FindFunction | Noham_Base_Proj_Cpp/Plugins/NEON/Source/NEON/Private/NEONMessageHandler.cpp:397-403 | finds a function iff one has the name, ignoring case |
| MessageHandler.InputElementError | Noham_Base_Proj_Cpp/Plugins/NEON/Source/NEON/Private/NEONMessageHandler.cpp:283-381 | scalar array elements never fail; a wrapper element fails iff it is not an object |
| MessageHandler.FirstElementError | Noham_Base_Proj_Cpp/Plugins/NEON/Source/NEON/Private/NEONMessageHandler.cpp:283-381 | no error iff no element fails; otherwise the error of the first failing element |
| MessageHandler.CheckArrayElements | Noham_Base_Proj_Cpp/Plugins/NEON/Source/NEON/Private/NEONMessageHandler.cpp:283-381 | the element loop stops at the first failing element |
| MessageHandler.InputStepOf | Noham_Base_Proj_Cpp/Plugins/NEON/Source/NEON/Private/NEONMessageHandler.cpp:145-388 | a non-input is skipped, a missing input reported, an unsupported type halts; scalars are stored as sent despite type mismatches; a non-object wrapper aborts |
| MessageHandler.InputStepFor | Noham_Base_Proj_Cpp/Plugins/NEON/Source/NEON/Private/NEONMessageHandler.cpp:145-388 | one iteration of the marshalling loop agrees with InputStepOf |
| MessageHandler.BuildParams | Noham_Base_Proj_Cpp/Plugins/NEON/Source/NEON/Private/NEONMessageHandler.cpp:136-392 | marshalling as a recursion over the properties; BuildParamsBuffer, BuildFailsIffAborted and BuildFailuresAreMarshallingFailures state its meaning |
| MessageHandler.BuildParamsBuffer | Noham_Base_Proj_Cpp/Plugins/NEON/Source/NEON/Private/NEONMessageHandler.cpp:136-392 | the marshalling loop's result, arguments and failures are those of BuildParams |
| MessageHandler.BuildParamsIgnoresNonInputs | Noham_Base_Proj_Cpp/Plugins/NEON/Source/NEON/Private/NEONMessageHandler.cpp:145-153 | non-input properties play no part in marshalling |
| MessageHandler.BuildFailsIffAborted | Noham_Base_Proj_Cpp/Plugins/NEON/Source/NEON/Private/NEONMessageHandler.cpp:255-260 | marshalling fails iff some property aborts before any property halts the loop |
| MessageHandler.BuildFailuresAreMarshallingFailures | Noham_Base_Proj_Cpp/Plugins/NEON/Source/NEON/Private/NEONMessageHandler.cpp:159-170 | marshalling only ever reports failures 7, 9 or 10 |
| MessageHandler.RefusedBuildEndsInTypeFailure | Noham_Base_Proj_Cpp/Plugins/NEON/Source/NEON/Private/NEONMessageHandler.cpp:255-260 | when marshalling refuses to call the delegate, its last failure is the type failure (7 or 9) that stopped it |
| MessageHandler.ScalarParametersAlwaysBuild | Noham_Base_Proj_Cpp/Plugins/NEON/Source/NEON/Private/NEONMessageHandler.cpp:189-237 | with scalar parameters the delegate always runs, and every input is either stored as sent or reported missing |
| MessageHandler.OutputElements | Noham_Base_Proj_Cpp/Plugins/NEON/Source/NEON/Private/NEONMessageHandler.cpp:416-560 | scalar elements are copied whole; failures are only 7 or 8 |
| MessageHandler.OutputStepOf | Noham_Base_Proj_Cpp/Plugins/NEON/Source/NEON/Private/NEONMessageHandler.cpp:416-560 | only pure out-parameters produce an output field, and only they can fail |
| MessageHandler.OutputElementsFailureSticks | Noham_Base_Proj_Cpp/Plugins/NEON/Source/NEON/Private/NEONMessageHandler.cpp:416-560 | once the element loop fails, later elements do not change the outcome |
| MessageHandler.SerializeArray | Noham_Base_Proj_Cpp/Plugins/NEON/Source/NEON/Private/NEONMessageHandler.cpp:416-560 | the element loop computes OutputElements |
| MessageHandler.OutputsFailureSticks | Noham_Base_Proj_Cpp/Plugins/NEON/Source/NEON/Private/NEONMessageHandler.cpp:416-560 | once the output loop fails, later properties do not change the outcome |
| MessageHandler.Outputs | Noham_Base_Proj_Cpp/Plugins/NEON/Source/NEON/Private/NEONMessageHandler.cpp:416-560 | the output object or the first serialisation failure; OutputsOnlyFromPureOuts, OutputsErrors and OutputsFailureSticks state its meaning |
| MessageHandler.SerializeOutputs | Noham_Base_Proj_Cpp/Plugins/NEON/Source/NEON/Private/NEONMessageHandler.cpp:416-560 | the output loop computes Outputs |
| MessageHandler.OutputsOnlyFromPureOuts | Noham_Base_Proj_Cpp/Plugins/NEON/Source/NEON/Private/NEONMessageHandler.cpp:420-427 | the output object's fields are exactly the names of the pure out-parameters |
| MessageHandler.OutputKeysArePureOutNames | Noham_Base_Proj_Cpp/Plugins/NEON/Source/NEON/Private/NEONMessageHandler.cpp:420-427 | the output object's fields are exactly the names of PureOutParams |
| MessageHandler.OutputsErrors | Noham_Base_Proj_Cpp/Plugins/NEON/Source/NEON/Private/NEONMessageHandler.cpp:416-560 | a failed output loop reports 7 or 8 |
| MessageHandler.FunctionInvocation | Noham_Base_Proj_Cpp/Plugins/NEON/Source/NEON/Private/NEONMessageHandler.cpp:394-571 | an unknown delegate gives failure 6 and no call; otherwise the marshalling failures, the call if marshalling succeeded, then the outputs or their failure |
| MessageHandler.EventInvocation | Noham_Base_Proj_Cpp/Plugins/NEON/Source/NEON/Private/NEONMessageHandler.cpp:573-597 | an unknown delegate gives failure 6 and no call; otherwise the marshalling failures, and after a call an empty Success |
| MessageHandler.InvokeFunction | Noham_Base_Proj_Cpp/Plugins/NEON/Source/NEON/Private/NEONMessageHandler.cpp:394-571 | the loops run as written and agree with FunctionInvocation |
| MessageHandler.InvokeEvent | Noham_Base_Proj_Cpp/Plugins/NEON/Source/NEON/Private/NEONMessageHandler.cpp:573-597 | the loops run as written and agree with EventInvocation |
| MessageHandler.Query | Noham_Base_Proj_Cpp/Plugins/NEON/Source/NEON/Private/NEONMessageHandler.cpp:69-134 | OnQuery: a rejected request answers its failure, a function or event dispatches to its invocation; RejectedQueryAnswersOnce and QueryRepliesFollowProtocol state its meaning |
| MessageHandler.RejectedQueryAnswersOnce | Noham_Base_Proj_Cpp/Plugins/NEON/Source/NEON/Private/NEONMessageHandler.cpp:80-120 | a rejected query gets exactly one failure, coded 1..5, and nothing runs |
| MessageHandler.FailureOfIsProtocolReply | Noham_Base_Proj_Cpp/Plugins/NEON/Source/NEON/Private/NEONMessageHandler.cpp:17-44 | every failure carries its code's message |
| MessageHandler.FunctionRepliesFollowProtocol | Noham_Base_Proj_Cpp/Plugins/NEON/Source/NEON/Private/NEONMessageHandler.cpp:394-571 | every reply to a function call is a Success or a failure coded 1..10 with its code's message (or the missing-parameter text for 10) |
| MessageHandler.EventRepliesFollowProtocol | Noham_Base_Proj_Cpp/Plugins/NEON/Source/NEON/Private/NEONMessageHandler.cpp:573-597 | every reply to an event is a Success or a failure coded 1..10 with its code's message (or the missing-parameter text for 10) |
| MessageHandler.QueryRepliesFollowProtocol | Noham_Base_Proj_Cpp/Plugins/NEON/Source/NEON/Private/NEONMessageHandler.cpp:69-134 | every reply to a query is a Success or a failure with a code 1..10 and that code's text |
| NeonWidget.ReplaceChar | Noham_Base_Proj_Cpp/Plugins/NEON/Source/NEON/Private/UNEONWidget.cpp:328-332 | a text without the character is unchanged |
| NeonWidget.ReplaceCharChars | Noham_Base_Proj_Cpp/Plugins/NEON/Source/NEON/Private/UNEONWidget.cpp:328-332 | the replaced character no longer occurs unless the replacement holds it, and every other character comes from the text or the replacement |
| NeonWidget.ReplaceCharAppend | Noham_Base_Proj_Cpp/Plugins/NEON/Source/NEON/Private/UNEONWidget.cpp:328-332 | replacing distributes over concatenation |
| NeonWidget.Escape | Noham_Base_Proj_Cpp/Plugins/NEON/Source/NEON/Private/UNEONWidget.cpp:328-332 | the escaped text has no raw line feed, carriage return or tab |
| NeonWidget.EscapeOfOne | Noham_Base_Proj_Cpp/Plugins/NEON/Source/NEON/Private/UNEONWidget.cpp:388-392 | the replacement chain on one character gives that character's escape |
| NeonWidget.EscapeAppend | Noham_Base_Proj_Cpp/Plugins/NEON/Source/NEON/Private/UNEONWidget.cpp:388-392 | escaping distributes over concatenation |
| NeonWidget.EscapeIsOnePass | Noham_Base_Proj_Cpp/Plugins/NEON/Source/NEON/Private/UNEONWidget.cpp:328-332 | the chain of replacements equals the one-pass escape: no replacement rewrites an earlier one's output |
| NeonWidget.EscapeEachAppend | Noham_Base_Proj_Cpp/Plugins/NEON/Source/NEON/Private/UNEONWidget.cpp:388-392 | the one-pass escape distributes over concatenation |
| NeonWidget.BackslashRunPrefix | Noham_Base_Proj_Cpp/Plugins/NEON/Source/NEON/Private/UNEONWidget.cpp:328-332 | a run of backslashes inside a prefix is not changed by what follows |
| NeonWidget.EscapedQuotesExtend | Noham_Base_Proj_Cpp/Plugins/NEON/Source/NEON/Private/UNEONWidget.cpp:328-332 | appending one escaped character keeps every quote escaped and the trailing backslash run even |
| NeonWidget.EscapedQuotes | Noham_Base_Proj_Cpp/Plugins/NEON/Source/NEON/Private/UNEONWidget.cpp:328-332 | in an escaped text every quote follows an odd run of backslashes, and the text ends in an even run |
| NeonWidget.EscapeQuotesEscaped | Noham_Base_Proj_Cpp/Plugins/NEON/Source/NEON/Private/UNEONWidget.cpp:388-392 | every quote the widget emits in a string argument is escaped |
| NeonWidget.EscapeRoundTrip | Noham_Base_Proj_Cpp/Plugins/NEON/Source/NEON/Private/UNEONWidget.cpp:328-334 | reading the escaped literal back gives the original text and ends at the closing quote |
| NeonWidget.EscapeEachRoundTrip | Noham_Base_Proj_Cpp/Plugins/NEON/Source/NEON/Private/UNEONWidget.cpp:388-394 | the one-pass escape reads back to the original text |
| NeonWidget.CallScript | Noham_Base_Proj_Cpp/Plugins/NEON/Source/NEON/Private/UNEONWidget.cpp:302 | the call text: the prefix, the method name unescaped between quotes, then the rest; the read-back lemmas below state its meaning |
| NeonWidget.NoParamScript | Noham_Base_Proj_Cpp/Plugins/NEON/Source/NEON/Private/UNEONWidget.cpp:302 | the no-parameter script; NoParamScriptReadsBack reads it back |
| NeonWidget.StringScript | Noham_Base_Proj_Cpp/Plugins/NEON/Source/NEON/Private/UNEONWidget.cpp:334 | the script with an escaped string argument (InvokeWeb and InvokeWebString); StringScriptReadsBack reads it back |
| NeonWidget.BooleanScript | Noham_Base_Proj_Cpp/Plugins/NEON/Source/NEON/Private/UNEONWidget.cpp:348 | the script with a bare true or false; BooleanScriptReadsBack reads it back |
| NeonWidget.IntegerScript | Noham_Base_Proj_Cpp/Plugins/NEON/Source/NEON/Private/UNEONWidget.cpp:361 | the script with the value printed by %d; IntegerScriptReadsBack reads it back |
| NeonWidget.Unescaped | Noham_Base_Proj_Cpp/Plugins/NEON/Source/NEON/Private/UNEONWidget.cpp:305 | the character each JavaScript single-character escape (\' \" \\ \b \f \n \r \t \v) stands for in the page |
| NeonWidget.ReadEscape | Noham_Base_Proj_Cpp/Plugins/NEON/Source/NEON/Private/UNEONWidget.cpp:305 | how the page reads an escape sequence: single-character escapes, line continuations, \0, \xHH, \uHHHH and any other character as itself; it takes at least one character |
| NeonWidget.ReadStringLiteral | Noham_Base_Proj_Cpp/Plugins/NEON/Source/NEON/Private/UNEONWidget.cpp:305 | how the page reads a double-quoted string literal up to its closing quote; what follows is strictly shorter than the input; EscapeRoundTrip states that it inverts Escape |
| NeonWidget.ParseInvocation | Noham_Base_Proj_Cpp/Plugins/NEON/Source/NEON/Private/UNEONWidget.cpp:305 | how the page reads a script: the method name as a JavaScript string literal read with ReadStringLiteral, then no argument, a string literal, true/false or a decimal |
| NeonWidget.ReadPlainLiteral | Noham_Base_Proj_Cpp/Plugins/NEON/Source/NEON/Private/UNEONWidget.cpp:302 | a name without quote, backslash or line break followed by a quote reads back as a string literal with that value |
| NeonWidget.ParseScriptPrefix | Noham_Base_Proj_Cpp/Plugins/NEON/Source/NEON/Private/UNEONWidget.cpp:302 | a plain method name (no quote, backslash or line break) reads back whole, with the argument read from the rest |
| NeonWidget.ParseScriptWithArgument | Noham_Base_Proj_Cpp/Plugins/NEON/Source/NEON/Private/UNEONWidget.cpp:334 | a script with a plain method name and an argument reads back as that name and argument |
| NeonWidget.NoParamScriptReadsBack | Noham_Base_Proj_Cpp/Plugins/NEON/Source/NEON/Private/UNEONWidget.cpp:294-306 | with a plain method name the no-parameter script reads back as the method with no argument |
| NeonWidget.StringArgumentReadsBack | Noham_Base_Proj_Cpp/Plugins/NEON/Source/NEON/Private/UNEONWidget.cpp:394 | a string argument reads back as the original string |
| NeonWidget.StringScriptReadsBack | Noham_Base_Proj_Cpp/Plugins/NEON/Source/NEON/Private/UNEONWidget.cpp:379-398 | with a plain method name the string script reads back as the method and the original string |
| NeonWidget.BooleanScriptReadsBack | Noham_Base_Proj_Cpp/Plugins/NEON/Source/NEON/Private/UNEONWidget.cpp:340-352 | with a plain method name the boolean script reads back as the method and the boolean |
| NeonWidget.IntegerScriptReadsBack | Noham_Base_Proj_Cpp/Plugins/NEON/Source/NEON/Private/UNEONWidget.cpp:353-365 | with a plain method name the integer script reads back as the method and the integer |
| NeonWidget.TrailingBackslashBreaksScript | Noham_Base_Proj_Cpp/Plugins/NEON/Source/NEON/Private/UNEONWidget.cpp:302 | a method name ending in a backslash swallows the closing quote, so the script does not parse |
| NeonWidget.UnescapedNameMisread | Noham_Base_Proj_Cpp/Plugins/NEON/Source/NEON/Private/UNEONWidget.cpp:302 | an escape inside a method name is decoded by the page, so the name it looks up differs from the one sent |
| NeonWidget.ResolveUrl | Noham_Base_Proj_Cpp/Plugins/NEON/Source/NEON/Private/UNEONWidget.cpp:147-171 | empty means "/index.html"; "http..." is used as is; otherwise a leading "/" is required (an error otherwise) and the URL is file:/// + project dir + NEON + path |
| NeonWidget.FileUrlHasNoBackslash | Noham_Base_Proj_Cpp/Plugins/NEON/Source/NEON/Private/UNEONWidget.cpp:166-168 | the project directory in a file URL carries no backslash |
| NeonWidget.KeyModifiers | Noham_Base_Proj_Cpp/Plugins/NEON/Source/NEON/Private/UNEONWidget.cpp:563-571 | each of the shift, control and alt bits is set iff that key is held, and no other bit is |
| NeonWidget.MouseModifiers | Noham_Base_Proj_Cpp/Plugins/NEON/Source/NEON/Private/UNEONWidget.cpp:539-553 | the key bits as for keys, plus one bit iff each mouse button is held, and no other bit |
| NeonWidget.CefButton | Noham_Base_Proj_Cpp/Plugins/NEON/Source/NEON/Private/UNEONWidget.cpp:466-485 | left, right and middle map to their CEF buttons; any other button is dropped |
| NeonWidget.KeyEventOf | Noham_Base_Proj_Cpp/Plugins/NEON/Source/NEON/Private/UNEONWidget.cpp:558-576 | a release is KEYUP and anything else RAWKEYDOWN, with the key code and the key modifiers |
| NeonWidget.CharacterEventOf | Noham_Base_Proj_Cpp/Plugins/NEON/Source/NEON/Private/UNEONWidget.cpp:578-596 | a CHAR event whose codes are the character, with the key modifiers |
| NeonWidget.Widget.constructor | Noham_Base_Proj_Cpp/Plugins/NEON/Source/NEON/Private/UNEONWidget.cpp:41-48 | both frame counters start at zero and nothing has been sent |
| NeonWidget.Widget.InvokeWebNoParam | Noham_Base_Proj_Cpp/Plugins/NEON/Source/NEON/Private/UNEONWidget.cpp:294-306 | runs the one-argument call when a browser exists; nothing otherwise |
| NeonWidget.Widget.InvokeWeb | Noham_Base_Proj_Cpp/Plugins/NEON/Source/NEON/Private/UNEONWidget.cpp:308-338 | runs the call with the escaped JSON text when a browser exists and the object is valid; nothing otherwise |
| NeonWidget.Widget.InvokeWebBoolean | Noham_Base_Proj_Cpp/Plugins/NEON/Source/NEON/Private/UNEONWidget.cpp:340-352 | runs the call with a bare true or false when a browser exists |
| NeonWidget.Widget.InvokeWebInteger | Noham_Base_Proj_Cpp/Plugins/NEON/Source/NEON/Private/UNEONWidget.cpp:353-365 | runs the call with the decimal value when a browser exists |
| NeonWidget.Widget.InvokeWebString | Noham_Base_Proj_Cpp/Plugins/NEON/Source/NEON/Private/UNEONWidget.cpp:379-398 | runs the call with the escaped string when a browser exists |
| NeonWidget.Widget.HandleMouseButtonEvent | Noham_Base_Proj_Cpp/Plugins/NEON/Source/NEON/Private/UNEONWidget.cpp:454-494 | a click of a main button is sent with its modifiers; other buttons send nothing |
| NeonWidget.Widget.OnAcceleratedPaint | Noham_Base_Proj_Cpp/Plugins/NEON/Source/NEON/Private/UNEONWidget.cpp:260-271 | a main-view paint counts one frame |
| NeonWidget.Widget.OnAcceleratedPaintPopup | Noham_Base_Proj_Cpp/Plugins/NEON/Source/NEON/Private/UNEONWidget.cpp:273-282 | a popup paint counts no frame |
| NeonWidget.Widget.OnFpsTimer | Noham_Base_Proj_Cpp/Plugins/NEON/Source/NEON/Private/UNEONWidget.cpp:41-48 | the timer publishes the frames counted and restarts the count at zero |
| NeonJs.FunctionCall | neon-ue-web-main/neon.js:101-118 | an empty delegate is rejected with 101, a missing cefQuery with 103; otherwise the request carries type "function" and delegate "Invoke_" + name |
| NeonJs.EventCall | neon-ue-web-main/neon.js:137-155 | an empty delegate is rejected with 101, a missing cefQuery with 103; otherwise the request carries type "event" and delegate "OnInvoke_" + name |
| NeonJs.RequestBody | neon-ue-web-main/neon.js:113-118 | the request object: type, delegate and parameters, where missing data becomes {}; RequestBodyFields states its fields |
| NeonJs.RequestBodyFields | neon-ue-web-main/neon.js:113-118 | the body has exactly the type, delegate and parameters fields that the engine checks |
| NeonJs.SentFunctionCallDispatches | neon-ue-web-main/neon.js:113-118 | a sent function request passes the engine's checks and dispatches to "Invoke_" + name, or is refused with 5 when the data is not an object |
| NeonJs.SentEventCallDispatches | neon-ue-web-main/neon.js:150-155 | a sent event request dispatches to "OnInvoke_" + name, or is refused with 5 when the data is not an object |
| NeonJs.FunctionSettlement | neon-ue-web-main/neon.js:119-133 | success resolves with the parsed response, or rejects with 102 when it does not parse; failure rejects with its code and message |
| NeonJs.EventSettlement | neon-ue-web-main/neon.js:156-163 | success resolves with null; failure rejects with its code and message |
| NeonJs.MissingParameterRunsButRejects | neon-ue-web-main/neon.js:130-133 | with a missing parameter the engine still runs the delegate, yet the page's promise rejects with 10 |
| NeonJs.FirstFailureIsMissing | neon-ue-web-main/neon.js:130-133 | the first reply to such a call is the missing-parameter failure |
| NeonJs.InvokeCall | neon-ue-web-main/neon.js:73-89 | a callback is called iff the data parses and the id is registered, with the parsed data |
| NeonJs.InvokeData | neon-ue-web-main/neon.js:73-77 | the data invoke parses: '{}' when the argument is missing, a boolean or number as itself, a string through JSON.parse (None when it throws) |
| NeonJs.PageCall | neon-ue-web-main/neon.js:73-89 | the callback a script of the engine runs: ParseInvocation, then InvokeCall on the data; the *CallReachesCallback lemmas state its result |
| NeonJs.NoParamCallReachesCallback | neon-ue-web-main/neon.js:73-89 | with a plain method name the engine's no-parameter call reaches the callback with {} |
| NeonJs.BooleanCallReachesCallback | neon-ue-web-main/neon.js:73-89 | with a plain method name the engine's boolean call reaches the callback with the boolean |
| NeonJs.IntegerCallReachesCallback | neon-ue-web-main/neon.js:73-89 | with a plain method name the engine's integer call reaches the callback with the integer |
| NeonJs.StringCallReachesCallback | neon-ue-web-main/neon.js:73-89 | with a plain method name the engine's string call reaches the callback with the page's parse of the original string |
| NeonJs.WebBridge.constructor | neon-ue-web-main/neon.js:90 | no callbacks and no calls yet |
| NeonJs.WebBridge.RegisterCallback | neon-ue-web-main/neon.js:69-72 | stores the callback under its id, overwriting an earlier one |
| NeonJs.WebBridge.Invoke | neon-ue-web-main/neon.js:73-89 | appends the call InvokeCall selects, if any |
| DebugBridge.RequestIdText | Noham_Base_Proj_Cpp/Content/UI/NEON/Components/Utils/neon-bridge.js:41-43 | the id "req_" + counter + "_" + time; RequestIdRoundTrip and RequestIdInjective state its meaning |
| DebugBridge.SplitAt | Noham_Base_Proj_Cpp/Content/UI/NEON/Components/Utils/neon-bridge.js:41-43 | splits at the first separator, or nothing iff there is none |
| DebugBridge.SplitAtFirst | Noham_Base_Proj_Cpp/Content/UI/NEON/Components/Utils/neon-bridge.js:41-43 | a separator-free prefix splits back off |
| DebugBridge.RequestIdRoundTrip | Noham_Base_Proj_Cpp/Content/UI/NEON/Components/Utils/neon-bridge.js:41-43 | a request id reads back as its counter and time |
| DebugBridge.RequestIdInjective | Noham_Base_Proj_Cpp/Content/UI/NEON/Components/Utils/neon-bridge.js:41-43 | equal ids come from equal counters and times |
| DebugBridge.FreshRequestId | Noham_Base_Proj_Cpp/Content/UI/NEON/Components/Utils/neon-bridge.js:41-60 | the next id is never already pending |
| DebugBridge.ResponseArgument | Noham_Base_Proj_Cpp/Content/UI/NEON/Components/Utils/neon-bridge.js:90-98 | the callback gets {error} when the error is truthy, and the data otherwise |
| DebugBridge.IndexOf | Noham_Base_Proj_Cpp/Content/UI/NEON/Components/Utils/neon-bridge.js:113-121 | -1 iff absent; otherwise the first position of the handler |
| DebugBridge.RemoveFirstProperties | Noham_Base_Proj_Cpp/Content/UI/NEON/Components/Utils/neon-bridge.js:113-121 | removing an absent handler changes nothing; a present one loses exactly one copy; adding then removing a new handler restores the list |
| DebugBridge.EventCalls | Noham_Base_Proj_Cpp/Content/UI/NEON/Components/Utils/neon-bridge.js:126-136 | one call per handler, in order, with the event data |
| DebugBridge.ThrownBy | Noham_Base_Proj_Cpp/Content/UI/NEON/Components/Utils/neon-bridge.js:126-136 | one logged error per throwing handler, naming the event type |
| DebugBridge.Bridge.constructor | Noham_Base_Proj_Cpp/Content/UI/NEON/Components/Utils/neon-bridge.js:7-36 | the counter is 0 and the tables are empty; "neon_ui_ready" is sent only with the engine present |
| DebugBridge.Bridge.GenerateRequestId | Noham_Base_Proj_Cpp/Content/UI/NEON/Components/Utils/neon-bridge.js:41-43 | the counter is incremented first, and the id carries the new value |
| DebugBridge.Bridge.SendCommand | Noham_Base_Proj_Cpp/Content/UI/NEON/Components/Utils/neon-bridge.js:48-85 | returns a fresh id; the callback is pending only when given and the broadcast does not throw; a throw calls it with {error} and drops it, unless the callback throws too: then it stays pending and the exception escapes |
| DebugBridge.Bridge.HandleResponse | Noham_Base_Proj_Cpp/Content/UI/NEON/Components/Utils/neon-bridge.js:90-98 | a pending id's callback is called with ResponseArgument and removed, except that a callback that throws stays pending and the exception escapes; an unknown id changes nothing |
| DebugBridge.Bridge.AddEventListener | Noham_Base_Proj_Cpp/Content/UI/NEON/Components/Utils/neon-bridge.js:103-108 | creates the list on first use and appends the handler |
| DebugBridge.Bridge.RemoveEventListener | Noham_Base_Proj_Cpp/Content/UI/NEON/Components/Utils/neon-bridge.js:113-121 | removes the first copy of the handler; an unknown type or handler changes nothing |
| DebugBridge.Bridge.HandleEvent | Noham_Base_Proj_Cpp/Content/UI/NEON/Components/Utils/neon-bridge.js:126-136 | calls every handler in order; a throwing handler is logged and the later ones still run |
| DebugBridge.SimulatedResponse | Noham_Base_Proj_Cpp/Content/UI/NEON/Components/Utils/neon-bridge.js:141-179 | the reply simulated without an engine; ToggleSimulation and UnknownCommandSimulation state its cases |
| DebugBridge.ToggleSimulation | Noham_Base_Proj_Cpp/Content/UI/NEON/Components/Utils/neon-bridge.js:143-152 | a simulated toggle answers enabled = not current, so feeding the answer back toggles back |
| DebugBridge.UnknownCommandSimulation | Noham_Base_Proj_Cpp/Content/UI/NEON/Components/Utils/neon-bridge.js:176-177 | an unknown command, such as get_debug_settings, answers success false with "Unknown command: " + command |
| MenuNavigation.Down | Noham_Base_Proj_Cpp/Content/UI/NEON/MainMenu/index.tsx:143-150 | the selection after Down; DownIsNextEnabled states its meaning |
| MenuNavigation.Up | Noham_Base_Proj_Cpp/Content/UI/NEON/MainMenu/index.tsx:127-136 | the selection after Up; UpIsPreviousEnabled states its meaning |
| MenuNavigation.DownFromSpec | Noham_Base_Proj_Cpp/Content/UI/NEON/MainMenu/index.tsx:143-150 | the downward skip lands on the first enabled item after the start, or back on the start |
| MenuNavigation.UpFromSpec | Noham_Base_Proj_Cpp/Content/UI/NEON/MainMenu/index.tsx:127-136 | the upward skip lands on the first enabled item before the start, or back on the start |
| MenuNavigation.DownIsNextEnabled | Noham_Base_Proj_Cpp/Content/UI/NEON/MainMenu/index.tsx:143-150 | Down is in range, is the start or an enabled item, and every item it steps over is disabled |
| MenuNavigation.UpIsPreviousEnabled | Noham_Base_Proj_Cpp/Content/UI/NEON/MainMenu/index.tsx:127-136 | Up is in range, is the start or an enabled item, and every item it steps over is disabled |
| MenuNavigation.StepsKeepEnabled | Noham_Base_Proj_Cpp/Content/UI/NEON/MainMenu/index.tsx:127-150 | from an enabled item, Up and Down land on an enabled item |
| MenuNavigation.AllEnabledSteps | shadcn-base/src/MainMenu.tsx:81-104 | with nothing disabled, Down is (prev + 1) mod n and Up is (prev - 1) mod n |
| MenuNavigation.SelectDown | Noham_Base_Proj_Cpp/Content/UI/NEON/MainMenu/index.tsx:143-150 | the skip loop computes Down, and ends within n steps |
| MenuNavigation.SelectUp | Noham_Base_Proj_Cpp/Content/UI/NEON/MainMenu/index.tsx:127-136 | the skip loop computes Up, and ends within n steps |
| MenuNavigation.SelectTab | Noham_Base_Proj_Cpp/Content/UI/NEON/MainMenu/index.tsx:165-178 | Tab moves Down and Shift+Tab moves Up |
| MenuNavigation.KeyActionOf | Noham_Base_Proj_Cpp/Content/UI/NEON/MainMenu/index.tsx:122-181 | ArrowUp/w/W move up, ArrowDown/s/S down, Enter and Space activate, Escape and Tab their own actions, any other key nothing; HandleKeyDown states the effects |
| MenuNavigation.PollSelection | Noham_Base_Proj_Cpp/Content/UI/NEON/MainMenu/index.tsx:199-223 | a poll moves up, then down, for the buttons that fired, staying in range |
| MenuNavigation.MovePoll | Noham_Base_Proj_Cpp/Content/UI/NEON/MainMenu/index.tsx:199-223 | the two updates of one poll compute PollSelection |
| MenuNavigation.PollKeepsEnabled | Noham_Base_Proj_Cpp/Content/UI/NEON/MainMenu/index.tsx:199-223 | a poll that starts on an enabled item ends on one |
| MenuNavigation.Pressed | Noham_Base_Proj_Cpp/Content/UI/NEON/MainMenu/index.tsx:199-232 | up is the d-pad or the stick below -0.5, down the d-pad or the stick above 0.5 |
| MenuNavigation.Rising | Noham_Base_Proj_Cpp/Content/UI/NEON/MainMenu/index.tsx:201-243 | the buttons down now and not at the last poll; HeldButtonFiresOnce states its meaning |
| MenuNavigation.HeldButtonFiresOnce | Noham_Base_Proj_Cpp/Content/UI/NEON/MainMenu/index.tsx:200-243 | within one set-up of the poll, a button held over many polls fires once: after a poll that fired it, it fires again only after a poll at which it was released |
| MenuNavigation.FreshPollFiresHeldButtons | Noham_Base_Proj_Cpp/Content/UI/NEON/MainMenu/index.tsx:188-250 | after the poll is set up again, a held button fires again |
| MainMenu.Items | Noham_Base_Proj_Cpp/Content/UI/NEON/MainMenu/index.tsx:69-107 | four items, where "continue" is disabled exactly without save data and no other item is |
| MainMenu.Activation | Noham_Base_Proj_Cpp/Content/UI/NEON/MainMenu/index.tsx:110-115 | an action runs iff the item exists and is enabled, and it is that item's function |
| MainMenu.ContinueNeedsSaveData | Noham_Base_Proj_Cpp/Content/UI/NEON/MainMenu/index.tsx:80-88 | without save data no activation starts continue_game; with it "continue" does |
| MainMenu.ContinueIsSkipped | Noham_Base_Proj_Cpp/Content/UI/NEON/MainMenu/index.tsx:127-150 | without save data Down and Up skip "continue"; with it Down stops there |
| MainMenu.Menu.constructor | Noham_Base_Proj_Cpp/Content/UI/NEON/MainMenu/index.tsx:36-39 | the first item is selected, keyboard mode, no save data, no calls |
| MainMenu.Menu.ActivateMenuItem | Noham_Base_Proj_Cpp/Content/UI/NEON/MainMenu/index.tsx:110-115 | calls the item's function when Activation allows it and the function is bound |
| MainMenu.Menu.HandleKeyDown | Noham_Base_Proj_Cpp/Content/UI/NEON/MainMenu/index.tsx:119-181 | keyboard mode; arrows, w/s and Tab move as Up/Down; Enter and Space activate the selection; Escape logs; a key that changes the selection or the input mode leaves the gamepad poll with no button remembered |
| MainMenu.Menu.CheckGamepad | Noham_Base_Proj_Cpp/Content/UI/NEON/MainMenu/index.tsx:188-250 | without a gamepad nothing changes; with one, gamepad mode, and the buttons that fired move, activate the item selected at the start of the poll, or log; a poll that changes the selection or the input mode re-renders the page, which sets the poll up again with no button remembered |
| MainMenu.Menu.Resubscribe | Noham_Base_Proj_Cpp/Content/UI/NEON/MainMenu/index.tsx:188-191 | a render for another reason re-creates the poll with no button held |
| MainMenu.Menu.MouseEnter | Noham_Base_Proj_Cpp/Content/UI/NEON/MainMenu/index.tsx:253-256 | hovering an enabled item selects it in keyboard mode; hovering a disabled one changes nothing, so the selection stays on an enabled item; the page's onMouseEnter (line 354) only calls the handler for an enabled item; a change leaves the gamepad poll with no button remembered |
| MainMenu.Menu.ButtonClick | Noham_Base_Proj_Cpp/Content/UI/NEON/MainMenu/index.tsx:259-267 | a click calls the item's function unless it is disabled |
| ShadcnMenu.Activation | shadcn-base/src/MainMenu.tsx:66-71 | every existing item acts, with its own action |
| ShadcnMenu.OnlyQuitReachesEngine | shadcn-base/src/MainMenu.tsx:30-63 | only "quit" sends an engine event, "QuitGame" with no parameters; the rest navigate |
| ShadcnMenu.StepsWrapAroundFour | shadcn-base/src/MainMenu.tsx:81-104 | Down is (prev + 1) mod 4 and Up is (prev - 1) mod 4 |
| ShadcnMenu.QuitDispatchesEvent | shadcn-base/src/MainMenu.tsx:20-27 | quitting reaches the engine as the event "OnInvoke_QuitGame" with no parameters |
| ShadcnMenu.Menu.constructor | shadcn-base/src/MainMenu.tsx:16 | the first item is selected and nothing has happened |
| ShadcnMenu.Menu.Perform | shadcn-base/src/MainMenu.tsx:20-27 | a page change is recorded; an event is sent only when window.NEON exists |
| ShadcnMenu.Menu.HandleKeyDown | shadcn-base/src/MainMenu.tsx:75-135 | arrows, w/s and Tab move as Up/Down; Enter and Space perform the selected item; Escape sends a log event; a change of the selection leaves the gamepad poll with no button remembered |
| ShadcnMenu.Menu.CheckGamepad | shadcn-base/src/MainMenu.tsx:142-202 | without a gamepad nothing changes; the buttons that fired move, perform the item selected at the start of the poll, or log; a poll that moves the selection re-renders the page, which sets the poll up again with no button remembered |
| ShadcnMenu.Menu.Resubscribe | shadcn-base/src/MainMenu.tsx:142-145 | a render for another reason re-creates the poll with no button held |
| ShadcnMenu.Menu.MouseEnter | shadcn-base/src/MainMenu.tsx:205-207 | the hovered item becomes selected; a change of the selection leaves the gamepad poll with no button remembered |
| ShadcnMenu.Menu.Click | shadcn-base/src/MainMenu.tsx:228 | a click performs the item's action, with no disabled check |

## Left out

- Float bounds: range checks and products of multipliers are over `real`. Float literals such as 0.1f and 0.9f are taken as the exact decimals, and float rounding is not modelled.
- NaN is not represented. The source writes every range check as `x < lo || x > hi` followed by a rejection, so a NaN passes them and is stored. This affects the validators ValidateAudioSettings and ValidateInputSettings, the volume setters SetMasterVolume, SetMusicVolume, SetSFXVolume and SetVoiceVolume, and the input setters SetMouseSensitivityX/Y, SetADSSensitivityMultiplier, SetGamepadSensitivityX/Y, SetLeftStickDeadZone, SetRightStickDeadZone and SetVibrationIntensity. Over `real` their "accepts iff in range" holds, whereas the source also accepts NaN. Character.NohamCharacter.SetMovementSpeedMultiplier likewise does not model FMath::Clamp turning NaN into 5.0.
- Persistence: SaveSettings, LoadSettings, ExportSettings and the JSON conversion of settings are file and engine I/O. ImportSettings takes the file as already-parsed optional sections.
- Applying settings to the engine: the GameUserSettings and audio calls in the setters and the Apply functions are engine calls.
- Settings.SettingsSubsystem.HasBackup: the backup file test is a parameter, because the file system is outside the model.
- Settings.SettingsSubsystem.BackupSettings: the backup file write is left out, because it is file I/O. The result is true whether or not the write succeeds, as in the source.
- Subsystem Initialize/Deinitialize in the settings and UI subsystems: engine lifecycle. The input subsystem's Initialize is modelled.
- UIManager: the ShowMainMenu, ShowSettings, ShowPauseMenu and ShowHUD shortcuts are left out. Each is one ShowWidget call with a fixed name.
- UIManager: widget creation, AddToViewport and the z-order, and RemoveFromParent are engine calls. Their results are parameters. LogUIAction only logs.
- InputManager: the broadcast delegate's listeners are outside the model. Broadcasts are recorded in order. The clock, environment variables and Slate's gamepad query are parameters.
- Character.NohamCharacter.Look: returns the scaled input before smoothing, because the interpolation over the frame time (FMath::Vector2DInterpTo) is engine numerics.
- Character: the capsule and field-of-view interpolation (UpdateCrouchState, UpdateAimState, Tick), camera collision, the interaction trace and debug drawing are engine physics. Crouch is modelled as a request plus the target half-height.
- Character: BeginPlay, SetupPlayerInputComponent and NotifyControllerChanged bind engine input. The settings record the character finds is a field.
- MessageHandler: JSON field names are matched exactly, while the engine's JSON object lookup ignores case.
- MessageHandler: JSON numbers are integers. Fractions, the float-to-int64 truncation and the engine's AsBool/AsNumber conversions are not modelled.
- MessageHandler: the text the engine's JSON writer produces for Success is abstract.
- MessageHandler: InvalidInput (8) on the input side needs a null JSON object pointer, which parsed JSON cannot produce, so the model never reaches it there.
- MessageHandler: the final `return false` of OnQuery (NEONMessageHandler.cpp:133) cannot be reached, because every earlier path returns.
- MessageHandler: logging (UE_LOG, GetJsonTypeAsString) is not modelled.
- NeonWidget: InvokeWebFloat is left out. It prints a float with %f, and floating-point formatting is not modelled.
- NeonWidget: pixel scaling of mouse coordinates, the Direct3D texture sharing of the paint callbacks, and the browser's own event handling are foreign.
- NeonWidget: a URL without a leading "/" is an error result. The source stops the program with a fatal log.
- ParseScriptPrefix: promised only for a plain method name, with no quote, backslash or line break. The widget inserts the name unescaped, and the page reads it as a string literal. TrailingBackslashBreaksScript and UnescapedNameMisread show the other cases.
- ParseScriptWithArgument: promised only for a plain method name, with no quote, backslash or line break. The widget inserts the name unescaped, and the page reads it as a string literal. TrailingBackslashBreaksScript and UnescapedNameMisread show the other cases.
- NoParamScriptReadsBack: promised only for a plain method name, with no quote, backslash or line break. The widget inserts the name unescaped, and the page reads it as a string literal. TrailingBackslashBreaksScript and UnescapedNameMisread show the other cases.
- StringScriptReadsBack: promised only for a plain method name, with no quote, backslash or line break. The widget inserts the name unescaped, and the page reads it as a string literal. TrailingBackslashBreaksScript and UnescapedNameMisread show the other cases.
- BooleanScriptReadsBack: promised only for a plain method name, with no quote, backslash or line break. The widget inserts the name unescaped, and the page reads it as a string literal. TrailingBackslashBreaksScript and UnescapedNameMisread show the other cases.
- IntegerScriptReadsBack: promised only for a plain method name, with no quote, backslash or line break. The widget inserts the name unescaped, and the page reads it as a string literal. TrailingBackslashBreaksScript and UnescapedNameMisread show the other cases.
- NoParamCallReachesCallback: promised only for a plain method name, for the same reason as the NeonWidget read-back lemmas.
- BooleanCallReachesCallback: promised only for a plain method name, for the same reason as the NeonWidget read-back lemmas.
- IntegerCallReachesCallback: promised only for a plain method name, for the same reason as the NeonWidget read-back lemmas.
- StringCallReachesCallback: promised only for a plain method name, for the same reason as the NeonWidget read-back lemmas.
- ReadEscape: some escapes are read as syntax errors although the page decodes them: legacy octal escapes (\1 to \7, and \0 followed by a digit) give their octal code, \8 and \9 give the digit, \u{…} gives its code point, and a \uHHHH code of a lone surrogate gives that surrogate. Dafny's char cannot hold a lone surrogate, and the widget never emits any of these escapes.
- MenuNavigation.HeldButtonFiresOnce: promised only while one set-up of the poll lives. The effect depends on menuItems, a new array at every render, so any render sets the poll up again with an empty memory. A held up or down that moves the selection therefore fires again at the next poll. The menus' CheckGamepad, HandleKeyDown and MouseEnter state that reset.
- NeonJs: cefQuery and the promises are asynchronous, and the model gives the settled outcome per reply. CEF delivers only the first reply to the page, which MissingParameterRunsButRejects relies on.
- NeonJs: the page's JSON parser for string arguments is a parameter. Callbacks are opaque.
- NeonJs: keys of the callbacks object that collide with JavaScript prototype properties are not modelled.
- NeonJs: NEON.invokeUnreal and window.NEON_Bridge_Web_Invoke are aliases, so they are modelled by EventCall and WebBridge.Invoke respectively.
- DebugBridge: the standalone reply comes from a setTimeout, so SimulatedResponse gives its value and not its timing.
- DebugBridge: the random performance figures are a parameter. A handler that changes the list during forEach is not modelled.
- DebugBridge: console logging is not modelled.
- Menus: rendering, animation and isVisible state in the TSX files are presentation only.
- Menus: the settings pages, the other shadcn pages and the templates are left out, because their logic is display formatting.
- Module startup, CEF initialisation, the GPU interop of the NEON views, and the build files are foreign code. The JS polling in shadcn-base/src/lib/neon.ts is not modelled either.
