/// The settings store of the game (UNohamSettingsSubsystem): three records for graphics,
/// audio and input, range validators, per-field setters that either reject a value or
/// change exactly that field, an in-memory backup, and a transactional import.
/// Engine application (GameUserSettings), the settings files and JSON conversion are
/// outside the model; import receives its sections already converted.
module Settings {
  import opened Wrappers
  import Text

  datatype IntPoint = IntPoint(x: int, y: int)

  /// Window mode codes: 0 = Fullscreen, 1 = Windowed, 2 = Borderless.
  /// Quality preset codes: 0 = Low, 1 = Medium, 2 = High, 3 = Epic.
  /// A frame-rate limit of 0 means unlimited.
  datatype GraphicsSettings = GraphicsSettings(
    resolution: IntPoint,
    windowMode: int,
    vsyncEnabled: bool,
    frameRateLimit: int,
    qualityPreset: int)

  datatype AudioDevice = AudioDevice(deviceId: string, deviceName: string, isDefault: bool)

  /// Volumes run from 0.0 to 1.0; a volume of 0.0 is how a channel is muted (there is no
  /// separate mute flag).
  datatype AudioSettings = AudioSettings(
    masterVolume: real,
    musicVolume: real,
    sfxVolume: real,
    voiceVolume: real,
    selectedAudioDeviceId: string)

  datatype InputSettings = InputSettings(
    mouseSensitivityX: real,
    mouseSensitivityY: real,
    adsSensitivityMultiplier: real,
    invertMouseY: bool,
    gamepadSensitivityX: real,
    gamepadSensitivityY: real,
    invertGamepadY: bool,
    leftStickDeadZone: real,
    rightStickDeadZone: real,
    enableVibration: bool,
    vibrationIntensity: real)

  datatype WindowMode = Fullscreen | Windowed | Borderless

  datatype QualityPreset = Low | Medium | High | Epic

  function WindowModeCode(m: WindowMode): int
  {
    match m
    case Fullscreen => 0
    case Windowed => 1
    case Borderless => 2
  }

  /// Decodes a stored window mode; only the three documented codes name a mode.
  function WindowModeOf(code: int): (m: Option<WindowMode>)
    ensures m.Some? <==> 0 <= code <= 2
    ensures m.Some? ==> WindowModeCode(m.value) == code
  {
    if code == 0 then Some(Fullscreen)
    else if code == 1 then Some(Windowed)
    else if code == 2 then Some(Borderless)
    else None
  }

  function QualityPresetCode(p: QualityPreset): int
  {
    match p
    case Low => 0
    case Medium => 1
    case High => 2
    case Epic => 3
  }

  /// Decodes a stored quality preset; only the four documented codes name a preset.
  function QualityPresetOf(code: int): (p: Option<QualityPreset>)
    ensures p.Some? <==> 0 <= code <= 3
    ensures p.Some? ==> QualityPresetCode(p.value) == code
  {
    if code == 0 then Some(Low)
    else if code == 1 then Some(Medium)
    else if code == 2 then Some(High)
    else if code == 3 then Some(Epic)
    else None
  }

  // ---- Ranges (the float bounds 0.1f and 0.9f are read as the exact decimals) ----

  predicate ResolutionAccepted(r: IntPoint) { r.x >= 640 && r.y >= 480 }

  predicate FrameRateLimitAccepted(limit: int) { limit == 0 || limit >= 30 }

  predicate VolumeAccepted(v: real) { 0.0 <= v <= 1.0 }

  predicate SensitivityAccepted(v: real) { 0.1 <= v <= 5.0 }

  predicate AdsMultiplierAccepted(v: real) { 0.1 <= v <= 1.0 }

  predicate DeadZoneAccepted(v: real) { 0.0 <= v <= 0.9 }

  predicate VibrationIntensityAccepted(v: real) { 0.0 <= v <= 1.0 }

  // ---- Validators, written as the source's chains of rejections ----

  /// Accepts exactly the records whose every graphics field is in its documented range.
  function ValidateGraphicsSettings(g: GraphicsSettings): (ok: bool)
    ensures ok <==> ResolutionAccepted(g.resolution)
                    && WindowModeOf(g.windowMode).Some?
                    && FrameRateLimitAccepted(g.frameRateLimit)
                    && QualityPresetOf(g.qualityPreset).Some?
  {
    if g.resolution.x < 640 || g.resolution.y < 480 then false
    else if g.windowMode < 0 || g.windowMode > 2 then false
    else if g.frameRateLimit < 0 || (g.frameRateLimit > 0 && g.frameRateLimit < 30) then false
    else if g.qualityPreset < 0 || g.qualityPreset > 3 then false
    else true
  }

  /// Accepts exactly the records whose four volumes lie in [0, 1]; the selected device
  /// is not checked.
  function ValidateAudioSettings(a: AudioSettings): (ok: bool)
    ensures ok <==> VolumeAccepted(a.masterVolume) && VolumeAccepted(a.musicVolume)
                    && VolumeAccepted(a.sfxVolume) && VolumeAccepted(a.voiceVolume)
  {
    if a.masterVolume < 0.0 || a.masterVolume > 1.0 then false
    else if a.musicVolume < 0.0 || a.musicVolume > 1.0 then false
    else if a.sfxVolume < 0.0 || a.sfxVolume > 1.0 then false
    else if a.voiceVolume < 0.0 || a.voiceVolume > 1.0 then false
    else true
  }

  /// Accepts exactly the records whose sensitivities, ADS multiplier, dead zones and
  /// vibration intensity are in range; the three switches are not checked.
  function ValidateInputSettings(i: InputSettings): (ok: bool)
    ensures ok <==> SensitivityAccepted(i.mouseSensitivityX) && SensitivityAccepted(i.mouseSensitivityY)
                    && AdsMultiplierAccepted(i.adsSensitivityMultiplier)
                    && SensitivityAccepted(i.gamepadSensitivityX) && SensitivityAccepted(i.gamepadSensitivityY)
                    && DeadZoneAccepted(i.leftStickDeadZone) && DeadZoneAccepted(i.rightStickDeadZone)
                    && VibrationIntensityAccepted(i.vibrationIntensity)
  {
    if i.mouseSensitivityX < 0.1 || i.mouseSensitivityX > 5.0 then false
    else if i.mouseSensitivityY < 0.1 || i.mouseSensitivityY > 5.0 then false
    else if i.adsSensitivityMultiplier < 0.1 || i.adsSensitivityMultiplier > 1.0 then false
    else if i.gamepadSensitivityX < 0.1 || i.gamepadSensitivityX > 5.0 then false
    else if i.gamepadSensitivityY < 0.1 || i.gamepadSensitivityY > 5.0 then false
    else if i.leftStickDeadZone < 0.0 || i.leftStickDeadZone > 0.9 then false
    else if i.rightStickDeadZone < 0.0 || i.rightStickDeadZone > 0.9 then false
    else if i.vibrationIntensity < 0.0 || i.vibrationIntensity > 1.0 then false
    else true
  }

  predicate ValidRecords(g: GraphicsSettings, a: AudioSettings, i: InputSettings)
  {
    ValidateGraphicsSettings(g) && ValidateAudioSettings(a) && ValidateInputSettings(i)
  }

  // ---- Defaults ----

  /// The graphics record as the struct initialises it: 1920x1080, fullscreen, VSync on,
  /// unlimited frame rate, Epic quality.
  function DefaultGraphicsSettings(): (g: GraphicsSettings)
    ensures ValidateGraphicsSettings(g)
    ensures WindowModeOf(g.windowMode) == Some(Fullscreen) && QualityPresetOf(g.qualityPreset) == Some(Epic)
    ensures g.resolution == IntPoint(1920, 1080)
    ensures g.vsyncEnabled && g.frameRateLimit == 0
  {
    GraphicsSettings(IntPoint(1920, 1080), 0, true, 0, 3)
  }

  /// The audio record as the struct initialises it; no device is selected.
  function DefaultAudioSettings(): (a: AudioSettings)
    ensures ValidateAudioSettings(a) && a.selectedAudioDeviceId == ""
    ensures a.masterVolume == 1.0 && a.musicVolume == 0.8 && a.sfxVolume == 1.0 && a.voiceVolume == 1.0
  {
    AudioSettings(1.0, 0.8, 1.0, 1.0, "")
  }

  /// The input record as the struct initialises it: unit sensitivities, ADS 0.5, no
  /// inversion, dead zones 0.25, vibration on at full intensity.
  function DefaultInputSettings(): (i: InputSettings)
    ensures ValidateInputSettings(i)
    ensures i.mouseSensitivityX == 1.0 && i.mouseSensitivityY == 1.0 && i.adsSensitivityMultiplier == 0.5
    ensures i.gamepadSensitivityX == 1.0 && i.gamepadSensitivityY == 1.0
    ensures i.leftStickDeadZone == 0.25 && i.rightStickDeadZone == 0.25
    ensures !i.invertMouseY && !i.invertGamepadY && i.enableVibration && i.vibrationIntensity == 1.0
  {
    InputSettings(1.0, 1.0, 0.5, false, 1.0, 1.0, false, 0.25, 0.25, true, 1.0)
  }

  /// The only device the device list ever holds.
  function DefaultAudioDevice(): AudioDevice
  {
    AudioDevice("default", "Default Audio Device", true)
  }

  /// The search loop of SetAudioDevice: is there a cached device with this id? Ids are
  /// compared as FString == compares them, ignoring case.
  method FindAudioDevice(devices: seq<AudioDevice>, deviceId: string) returns (found: bool)
    ensures found <==> exists d :: d in devices && Text.EqualsIgnoreCase(d.deviceId, deviceId)
  {
    found := false;
    var i := 0;
    while i < |devices|
      invariant 0 <= i <= |devices|
      invariant !found
      invariant forall j :: 0 <= j < i ==> !Text.EqualsIgnoreCase(devices[j].deviceId, deviceId)
    {
      if Text.EqualsIgnoreCase(devices[i].deviceId, deviceId) {
        found := true;
        break;
      }
      i := i + 1;
    }
  }

  /// The sections of an import file that were present and converted to records. An
  /// absent section and one whose conversion failed are both None: import skips both.
  datatype ImportFile = ImportFile(
    graphics: Option<GraphicsSettings>,
    audio: Option<AudioSettings>,
    input: Option<InputSettings>)

  /// Every section the file carries passes its validator.
  predicate ImportSectionsValid(f: ImportFile)
  {
    (f.graphics.Some? ==> ValidateGraphicsSettings(f.graphics.value))
    && (f.audio.Some? ==> ValidateAudioSettings(f.audio.value))
    && (f.input.Some? ==> ValidateInputSettings(f.input.value))
  }

  function Override<T>(section: Option<T>, current: T): T
  {
    if section.Some? then section.value else current
  }

  /// Applying sections that all pass their validators to valid records keeps them valid.
  lemma ImportKeepsValid(g: GraphicsSettings, a: AudioSettings, i: InputSettings, f: ImportFile)
    requires ValidRecords(g, a, i) && ImportSectionsValid(f)
    ensures ValidRecords(Override(f.graphics, g), Override(f.audio, a), Override(f.input, i))
  {
  }

  /// The records an import ends with: the sections applied when all of them pass their
  /// validators, the old records otherwise. Either way valid records stay valid.
  lemma ImportOutcomeValid(g: GraphicsSettings, a: AudioSettings, i: InputSettings, f: ImportFile, ok: bool,
                           g': GraphicsSettings, a': AudioSettings, i': InputSettings)
    requires ok ==> ImportSectionsValid(f) && g' == Override(f.graphics, g) && a' == Override(f.audio, a)
                    && i' == Override(f.input, i)
    requires !ok ==> g' == g && a' == a && i' == i
    ensures ValidRecords(g, a, i) ==> ValidRecords(g', a', i')
  {
    if ok && ValidRecords(g, a, i) {
      ImportKeepsValid(g, a, i, f);
    }
  }

  class SettingsSubsystem {
    var graphicsSettings: GraphicsSettings
    var audioSettings: AudioSettings
    var inputSettings: InputSettings
    var backupGraphicsSettings: GraphicsSettings
    var backupAudioSettings: AudioSettings
    var backupInputSettings: InputSettings
    var hasBackup: bool
    var cachedAudioDevices: seq<AudioDevice>

    /// The records currently held all pass their validators. Loading a settings file is
    /// outside the model and does not validate, so this is kept, not assumed.
    predicate Valid()
      reads this
    {
      ValidRecords(graphicsSettings, audioSettings, inputSettings)
    }

    /// Fresh subsystem: struct defaults, no backup, no devices listed yet.
    constructor ()
      ensures graphicsSettings == DefaultGraphicsSettings()
      ensures audioSettings == DefaultAudioSettings()
      ensures inputSettings == DefaultInputSettings()
      ensures !hasBackup && cachedAudioDevices == []
      ensures Valid()
    {
      graphicsSettings := DefaultGraphicsSettings();
      audioSettings := DefaultAudioSettings();
      inputSettings := DefaultInputSettings();
      backupGraphicsSettings := DefaultGraphicsSettings();
      backupAudioSettings := DefaultAudioSettings();
      backupInputSettings := DefaultInputSettings();
      hasBackup := false;
      cachedAudioDevices := [];
    }

    // ---- Whole-record updates ----

    method UpdateGraphicsSettings(newSettings: GraphicsSettings) returns (ok: bool)
      modifies this`graphicsSettings
      ensures ok == ValidateGraphicsSettings(newSettings)
      ensures graphicsSettings == if ok then newSettings else old(graphicsSettings)
      ensures old(Valid()) ==> Valid()
    {
      if !ValidateGraphicsSettings(newSettings) {
        return false;
      }
      graphicsSettings := newSettings;
      return true;
    }

    method UpdateAudioSettings(newSettings: AudioSettings) returns (ok: bool)
      modifies this`audioSettings
      ensures ok == ValidateAudioSettings(newSettings)
      ensures audioSettings == if ok then newSettings else old(audioSettings)
      ensures old(Valid()) ==> Valid()
    {
      if !ValidateAudioSettings(newSettings) {
        return false;
      }
      audioSettings := newSettings;
      return true;
    }

    method UpdateInputSettings(newSettings: InputSettings) returns (ok: bool)
      modifies this`inputSettings
      ensures ok == ValidateInputSettings(newSettings)
      ensures inputSettings == if ok then newSettings else old(inputSettings)
      ensures old(Valid()) ==> Valid()
    {
      if !ValidateInputSettings(newSettings) {
        return false;
      }
      inputSettings := newSettings;
      return true;
    }

    // ---- Graphics setters ----

    method SetResolution(newResolution: IntPoint) returns (ok: bool)
      modifies this`graphicsSettings
      ensures ok == ResolutionAccepted(newResolution)
      ensures graphicsSettings == if ok then old(graphicsSettings).(resolution := newResolution) else old(graphicsSettings)
      ensures old(Valid()) ==> Valid()
    {
      if newResolution.x < 640 || newResolution.y < 480 {
        return false;
      }
      graphicsSettings := graphicsSettings.(resolution := newResolution);
      return true;
    }

    method SetWindowMode(windowMode: int) returns (ok: bool)
      modifies this`graphicsSettings
      ensures ok == WindowModeOf(windowMode).Some?
      ensures graphicsSettings == if ok then old(graphicsSettings).(windowMode := windowMode) else old(graphicsSettings)
      ensures old(Valid()) ==> Valid()
    {
      if windowMode < 0 || windowMode > 2 {
        return false;
      }
      graphicsSettings := graphicsSettings.(windowMode := windowMode);
      return true;
    }

    method SetVSync(enabled: bool) returns (ok: bool)
      modifies this`graphicsSettings
      ensures ok
      ensures graphicsSettings == old(graphicsSettings).(vsyncEnabled := enabled)
      ensures old(Valid()) ==> Valid()
    {
      graphicsSettings := graphicsSettings.(vsyncEnabled := enabled);
      return true;
    }

    method SetFrameRateLimit(limit: int) returns (ok: bool)
      modifies this`graphicsSettings
      ensures ok == FrameRateLimitAccepted(limit)
      ensures graphicsSettings == if ok then old(graphicsSettings).(frameRateLimit := limit) else old(graphicsSettings)
      ensures old(Valid()) ==> Valid()
    {
      if limit < 0 || (limit > 0 && limit < 30) {
        return false;
      }
      graphicsSettings := graphicsSettings.(frameRateLimit := limit);
      return true;
    }

    method SetQualityPreset(preset: int) returns (ok: bool)
      modifies this`graphicsSettings
      ensures ok == QualityPresetOf(preset).Some?
      ensures graphicsSettings == if ok then old(graphicsSettings).(qualityPreset := preset) else old(graphicsSettings)
      ensures old(Valid()) ==> Valid()
    {
      if preset < 0 || preset > 3 {
        return false;
      }
      graphicsSettings := graphicsSettings.(qualityPreset := preset);
      return true;
    }

    // ---- Audio setters ----

    method SetMasterVolume(volume: real) returns (ok: bool)
      modifies this`audioSettings
      ensures ok == VolumeAccepted(volume)
      ensures audioSettings == if ok then old(audioSettings).(masterVolume := volume) else old(audioSettings)
      ensures old(Valid()) ==> Valid()
    {
      if volume < 0.0 || volume > 1.0 {
        return false;
      }
      audioSettings := audioSettings.(masterVolume := volume);
      return true;
    }

    method SetMusicVolume(volume: real) returns (ok: bool)
      modifies this`audioSettings
      ensures ok == VolumeAccepted(volume)
      ensures audioSettings == if ok then old(audioSettings).(musicVolume := volume) else old(audioSettings)
      ensures old(Valid()) ==> Valid()
    {
      if volume < 0.0 || volume > 1.0 {
        return false;
      }
      audioSettings := audioSettings.(musicVolume := volume);
      return true;
    }

    method SetSFXVolume(volume: real) returns (ok: bool)
      modifies this`audioSettings
      ensures ok == VolumeAccepted(volume)
      ensures audioSettings == if ok then old(audioSettings).(sfxVolume := volume) else old(audioSettings)
      ensures old(Valid()) ==> Valid()
    {
      if volume < 0.0 || volume > 1.0 {
        return false;
      }
      audioSettings := audioSettings.(sfxVolume := volume);
      return true;
    }

    method SetVoiceVolume(volume: real) returns (ok: bool)
      modifies this`audioSettings
      ensures ok == VolumeAccepted(volume)
      ensures audioSettings == if ok then old(audioSettings).(voiceVolume := volume) else old(audioSettings)
      ensures old(Valid()) ==> Valid()
    {
      if volume < 0.0 || volume > 1.0 {
        return false;
      }
      audioSettings := audioSettings.(voiceVolume := volume);
      return true;
    }

    /// Selects an output device: the empty id (no preference) or the id of a listed device.
    method SetAudioDevice(deviceId: string) returns (ok: bool)
      modifies this`audioSettings
      ensures ok <==> deviceId == "" || exists d :: d in cachedAudioDevices && Text.EqualsIgnoreCase(d.deviceId, deviceId)
      ensures audioSettings == if ok then old(audioSettings).(selectedAudioDeviceId := deviceId) else old(audioSettings)
      ensures old(Valid()) ==> Valid()
    {
      var deviceExists := FindAudioDevice(cachedAudioDevices, deviceId);
      if !deviceExists && deviceId != "" {
        return false;
      }
      audioSettings := audioSettings.(selectedAudioDeviceId := deviceId);
      return true;
    }

    // ---- Input setters ----

    method SetMouseSensitivityX(sensitivity: real) returns (ok: bool)
      modifies this`inputSettings
      ensures ok == SensitivityAccepted(sensitivity)
      ensures inputSettings == if ok then old(inputSettings).(mouseSensitivityX := sensitivity) else old(inputSettings)
      ensures old(Valid()) ==> Valid()
    {
      if sensitivity < 0.1 || sensitivity > 5.0 {
        return false;
      }
      inputSettings := inputSettings.(mouseSensitivityX := sensitivity);
      return true;
    }

    method SetMouseSensitivityY(sensitivity: real) returns (ok: bool)
      modifies this`inputSettings
      ensures ok == SensitivityAccepted(sensitivity)
      ensures inputSettings == if ok then old(inputSettings).(mouseSensitivityY := sensitivity) else old(inputSettings)
      ensures old(Valid()) ==> Valid()
    {
      if sensitivity < 0.1 || sensitivity > 5.0 {
        return false;
      }
      inputSettings := inputSettings.(mouseSensitivityY := sensitivity);
      return true;
    }

    method SetADSSensitivityMultiplier(multiplier: real) returns (ok: bool)
      modifies this`inputSettings
      ensures ok == AdsMultiplierAccepted(multiplier)
      ensures inputSettings == if ok then old(inputSettings).(adsSensitivityMultiplier := multiplier) else old(inputSettings)
      ensures old(Valid()) ==> Valid()
    {
      if multiplier < 0.1 || multiplier > 1.0 {
        return false;
      }
      inputSettings := inputSettings.(adsSensitivityMultiplier := multiplier);
      return true;
    }

    method SetInvertMouseY(invert: bool) returns (ok: bool)
      modifies this`inputSettings
      ensures ok
      ensures inputSettings == old(inputSettings).(invertMouseY := invert)
      ensures old(Valid()) ==> Valid()
    {
      inputSettings := inputSettings.(invertMouseY := invert);
      return true;
    }

    method SetGamepadSensitivityX(sensitivity: real) returns (ok: bool)
      modifies this`inputSettings
      ensures ok == SensitivityAccepted(sensitivity)
      ensures inputSettings == if ok then old(inputSettings).(gamepadSensitivityX := sensitivity) else old(inputSettings)
      ensures old(Valid()) ==> Valid()
    {
      if sensitivity < 0.1 || sensitivity > 5.0 {
        return false;
      }
      inputSettings := inputSettings.(gamepadSensitivityX := sensitivity);
      return true;
    }

    method SetGamepadSensitivityY(sensitivity: real) returns (ok: bool)
      modifies this`inputSettings
      ensures ok == SensitivityAccepted(sensitivity)
      ensures inputSettings == if ok then old(inputSettings).(gamepadSensitivityY := sensitivity) else old(inputSettings)
      ensures old(Valid()) ==> Valid()
    {
      if sensitivity < 0.1 || sensitivity > 5.0 {
        return false;
      }
      inputSettings := inputSettings.(gamepadSensitivityY := sensitivity);
      return true;
    }

    method SetInvertGamepadY(invert: bool) returns (ok: bool)
      modifies this`inputSettings
      ensures ok
      ensures inputSettings == old(inputSettings).(invertGamepadY := invert)
      ensures old(Valid()) ==> Valid()
    {
      inputSettings := inputSettings.(invertGamepadY := invert);
      return true;
    }

    method SetLeftStickDeadZone(deadZone: real) returns (ok: bool)
      modifies this`inputSettings
      ensures ok == DeadZoneAccepted(deadZone)
      ensures inputSettings == if ok then old(inputSettings).(leftStickDeadZone := deadZone) else old(inputSettings)
      ensures old(Valid()) ==> Valid()
    {
      if deadZone < 0.0 || deadZone > 0.9 {
        return false;
      }
      inputSettings := inputSettings.(leftStickDeadZone := deadZone);
      return true;
    }

    method SetRightStickDeadZone(deadZone: real) returns (ok: bool)
      modifies this`inputSettings
      ensures ok == DeadZoneAccepted(deadZone)
      ensures inputSettings == if ok then old(inputSettings).(rightStickDeadZone := deadZone) else old(inputSettings)
      ensures old(Valid()) ==> Valid()
    {
      if deadZone < 0.0 || deadZone > 0.9 {
        return false;
      }
      inputSettings := inputSettings.(rightStickDeadZone := deadZone);
      return true;
    }

    method SetEnableVibration(enable: bool) returns (ok: bool)
      modifies this`inputSettings
      ensures ok
      ensures inputSettings == old(inputSettings).(enableVibration := enable)
      ensures old(Valid()) ==> Valid()
    {
      inputSettings := inputSettings.(enableVibration := enable);
      return true;
    }

    method SetVibrationIntensity(intensity: real) returns (ok: bool)
      modifies this`inputSettings
      ensures ok == VibrationIntensityAccepted(intensity)
      ensures inputSettings == if ok then old(inputSettings).(vibrationIntensity := intensity) else old(inputSettings)
      ensures old(Valid()) ==> Valid()
    {
      if intensity < 0.0 || intensity > 1.0 {
        return false;
      }
      inputSettings := inputSettings.(vibrationIntensity := intensity);
      return true;
    }

    // ---- Defaults, device list, backup ----

    /// The defaults loaded at start-up or on reset. They equal the struct defaults except
    /// that the device "default" is selected.
    method LoadDefaultSettings()
      modifies this`graphicsSettings, this`audioSettings, this`inputSettings
      ensures graphicsSettings == DefaultGraphicsSettings()
      ensures audioSettings == DefaultAudioSettings().(selectedAudioDeviceId := "default")
      ensures inputSettings == DefaultInputSettings()
      ensures Valid()
    {
      graphicsSettings := GraphicsSettings(IntPoint(1920, 1080), 0, true, 0, 3);
      audioSettings := AudioSettings(1.0, 0.8, 1.0, 1.0, "default");
      inputSettings := InputSettings(1.0, 1.0, 0.5, false, 1.0, 1.0, false, 0.25, 0.25, true, 1.0);
    }

    /// Reset: the defaults, then (outside the model) apply and save.
    method ResetToDefaults()
      modifies this`graphicsSettings, this`audioSettings, this`inputSettings
      ensures graphicsSettings == DefaultGraphicsSettings()
      ensures audioSettings == DefaultAudioSettings().(selectedAudioDeviceId := "default")
      ensures inputSettings == DefaultInputSettings()
      ensures Valid()
    {
      LoadDefaultSettings();
    }

    /// The device list is emptied and refilled with the one default device.
    method RefreshAudioDevices()
      modifies this`cachedAudioDevices
      ensures cachedAudioDevices == [DefaultAudioDevice()]
    {
      cachedAudioDevices := [];
      cachedAudioDevices := cachedAudioDevices + [DefaultAudioDevice()];
    }

    /// Copies the three records into the backup. Writing the backup file is outside the
    /// model; whether or not it succeeds, the result is true.
    method BackupSettings() returns (ok: bool)
      modifies this`backupGraphicsSettings, this`backupAudioSettings, this`backupInputSettings, this`hasBackup
      ensures ok && hasBackup
      ensures backupGraphicsSettings == graphicsSettings
      ensures backupAudioSettings == audioSettings
      ensures backupInputSettings == inputSettings
    {
      backupGraphicsSettings := graphicsSettings;
      backupAudioSettings := audioSettings;
      backupInputSettings := inputSettings;
      hasBackup := true;
      return true;
    }

    /// Without a backup nothing changes and the result is false; otherwise the three
    /// records become the backup.
    method RestoreFromBackup() returns (ok: bool)
      modifies this`graphicsSettings, this`audioSettings, this`inputSettings
      ensures ok == hasBackup
      ensures graphicsSettings == if ok then backupGraphicsSettings else old(graphicsSettings)
      ensures audioSettings == if ok then backupAudioSettings else old(audioSettings)
      ensures inputSettings == if ok then backupInputSettings else old(inputSettings)
    {
      if !hasBackup {
        return false;
      }
      graphicsSettings := backupGraphicsSettings;
      audioSettings := backupAudioSettings;
      inputSettings := backupInputSettings;
      return true;
    }

    /// A backup exists in memory or as a file (the file test is a parameter).
    function HasBackup(backupFileExists: bool): (r: bool)
      reads this`hasBackup
      ensures r <==> hasBackup || backupFileExists
      ensures !backupFileExists ==> (r == hasBackup)
    {
      hasBackup || backupFileExists
    }

    /// Backs up, then (outside the model) saves; always true.
    method ApplyPendingSettings() returns (ok: bool)
      modifies this`backupGraphicsSettings, this`backupAudioSettings, this`backupInputSettings, this`hasBackup
      ensures ok && hasBackup
      ensures backupGraphicsSettings == graphicsSettings
      ensures backupAudioSettings == audioSettings
      ensures backupInputSettings == inputSettings
    {
      var backedUp := BackupSettings();
      if !backedUp {
        return false;
      }
      return true;
    }

    method RevertSettings() returns (ok: bool)
      modifies this`graphicsSettings, this`audioSettings, this`inputSettings
      ensures ok == hasBackup
      ensures graphicsSettings == if ok then backupGraphicsSettings else old(graphicsSettings)
      ensures audioSettings == if ok then backupAudioSettings else old(audioSettings)
      ensures inputSettings == if ok then backupInputSettings else old(inputSettings)
    {
      ok := RestoreFromBackup();
    }

    /// One section of an import: a present section replaces the graphics record when it
    /// passes its validator, and fails the import when it does not.
    method ImportGraphicsSection(section: Option<GraphicsSettings>) returns (ok: bool)
      modifies this`graphicsSettings
      ensures ok <==> section.None? || ValidateGraphicsSettings(section.value)
      ensures graphicsSettings == if section.Some? && ok then section.value else old(graphicsSettings)
    {
      ok := true;
      if section.Some? {
        if ValidateGraphicsSettings(section.value) {
          graphicsSettings := section.value;
        } else {
          ok := false;
        }
      }
    }

    /// The audio section of an import, as for graphics.
    method ImportAudioSection(section: Option<AudioSettings>) returns (ok: bool)
      modifies this`audioSettings
      ensures ok <==> section.None? || ValidateAudioSettings(section.value)
      ensures audioSettings == if section.Some? && ok then section.value else old(audioSettings)
    {
      ok := true;
      if section.Some? {
        if ValidateAudioSettings(section.value) {
          audioSettings := section.value;
        } else {
          ok := false;
        }
      }
    }

    /// The input section of an import, as for graphics.
    method ImportInputSection(section: Option<InputSettings>) returns (ok: bool)
      modifies this`inputSettings
      ensures ok <==> section.None? || ValidateInputSettings(section.value)
      ensures inputSettings == if section.Some? && ok then section.value else old(inputSettings)
    {
      ok := true;
      if section.Some? {
        if ValidateInputSettings(section.value) {
          inputSettings := section.value;
        } else {
          ok := false;
        }
      }
    }

    /// Transactional import. A file that is missing or does not parse (None) fails before
    /// anything happens. Otherwise the current records are backed up, every section that
    /// passes its validator is applied, and if any section fails the records are restored
    /// from that backup.
    method ImportSettings(file: Option<ImportFile>) returns (ok: bool)
      modifies this`graphicsSettings, this`audioSettings, this`inputSettings
      modifies this`backupGraphicsSettings, this`backupAudioSettings, this`backupInputSettings, this`hasBackup
      ensures ok <==> file.Some? && ImportSectionsValid(file.value)
      ensures file.None? ==> unchanged(this)
      ensures file.Some? ==> hasBackup
                             && backupGraphicsSettings == old(graphicsSettings)
                             && backupAudioSettings == old(audioSettings)
                             && backupInputSettings == old(inputSettings)
      ensures ok ==> graphicsSettings == Override(file.value.graphics, old(graphicsSettings))
                     && audioSettings == Override(file.value.audio, old(audioSettings))
                     && inputSettings == Override(file.value.input, old(inputSettings))
      ensures !ok ==> graphicsSettings == old(graphicsSettings)
                      && audioSettings == old(audioSettings)
                      && inputSettings == old(inputSettings)
      ensures old(Valid()) ==> Valid()
    {
      if file.None? {
        return false;
      }
      var sections := file.value;
      ghost var g0, a0, i0 := graphicsSettings, audioSettings, inputSettings;
      var _ := BackupSettings();
      var graphicsOk := ImportGraphicsSection(sections.graphics);
      var audioOk := ImportAudioSection(sections.audio);
      var inputOk := ImportInputSection(sections.input);
      var success := graphicsOk && audioOk && inputOk;
      if !success {
        var _ := RestoreFromBackup();
      }
      ImportOutcomeValid(g0, a0, i0, sections, success, graphicsSettings, audioSettings, inputSettings);
      return success;
    }
  }
}
