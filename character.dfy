/// The movement-state rules of the player character (ANohamCharacter): when sprinting is
/// allowed, how the speed multipliers combine into the walk speed, the aim and crouch
/// targets, the look input scaling read from the input settings, and the focus
/// notifications sent to interactable actors. Engine state the character only reads
/// (crouched, falling, whether a movement component and a controller exist) is kept in
/// fields the model never changes; interpolation, traces and collision are left out.
module Character {
  import opened Wrappers
  import Settings

  /// An actor in the world, and whether it implements the interactable interface.
  datatype Actor = Actor(id: nat, implementsInteractable: bool)

  /// A call made on an interactable.
  datatype InteractableCall =
    | FocusLost(actor: Actor)
    | FocusGained(actor: Actor)
    | OnInteract(actor: Actor)

  /// Walk speed at a multiplier of 1.
  const BaseWalkSpeed: real := 600.0

  /// FMath::Clamp.
  function Clamp(x: real, lo: real, hi: real): (r: real)
    requires lo <= hi
    ensures lo <= r <= hi
    ensures lo <= x <= hi ==> r == x
    ensures x < lo ==> r == lo
    ensures x > hi ==> r == hi
  {
    if x < lo then lo else if x > hi then hi else x
  }

  /// The speed multiplier of a movement state: the base multiplier, scaled down while
  /// crouched and while aiming, and up while sprinting.
  function SpeedMultiplier(base: real, crouched: bool, aiming: bool, sprinting: bool,
                           crouchMultiplier: real, adsMultiplier: real, sprintMultiplier: real): real
  {
    base * (if crouched then crouchMultiplier else 1.0)
         * (if aiming then adsMultiplier else 1.0)
         * (if sprinting then sprintMultiplier else 1.0)
  }

  /// The sprint gate: not while crouched, not while aiming unless that is allowed, and not
  /// in the air (the falling test needs a movement component).
  function SprintAllowed(crouched: bool, aiming: bool, canSprintWhileAiming: bool,
                         hasMovementComponent: bool, falling: bool): (ok: bool)
    ensures ok <==> !crouched && (!aiming || canSprintWhileAiming) && !(hasMovementComponent && falling)
  {
    if crouched then false
    else if aiming && !canSprintWhileAiming then false
    else if hasMovementComponent && falling then false
    else true
  }

  /// With every multiplier inside its editor range (base 0.1-5, crouch 0.1-1, ADS 0.1-1,
  /// sprint 1-3), the walk speed stays between 0.6 and 9000 units per second, whichever
  /// of the crouch, aim and sprint states are active.
  lemma WalkSpeedBounds(base: real, crouched: bool, aiming: bool, sprinting: bool,
                        crouchMultiplier: real, adsMultiplier: real, sprintMultiplier: real)
    requires 0.1 <= base <= 5.0
    requires 0.1 <= crouchMultiplier <= 1.0 && 0.1 <= adsMultiplier <= 1.0 && 1.0 <= sprintMultiplier <= 3.0
    ensures 0.6 <= BaseWalkSpeed * SpeedMultiplier(base, crouched, aiming, sprinting,
                                                   crouchMultiplier, adsMultiplier, sprintMultiplier) <= 9000.0
  {
    var c := if crouched then crouchMultiplier else 1.0;
    var a := if aiming then adsMultiplier else 1.0;
    var s := if sprinting then sprintMultiplier else 1.0;
    assert 0.1 <= c <= 1.0 && 0.1 <= a <= 1.0 && 1.0 <= s <= 3.0;
    var bc := base * c;
    assert 0.01 <= bc <= 5.0 by {
      MulBounds(base, c, 0.1, 5.0, 0.1, 1.0);
    }
    var bca := bc * a;
    assert 0.001 <= bca <= 5.0 by {
      MulBounds(bc, a, 0.01, 5.0, 0.1, 1.0);
    }
    var bcas := bca * s;
    assert 0.001 <= bcas <= 15.0 by {
      MulBounds(bca, s, 0.001, 5.0, 1.0, 3.0);
    }
    assert SpeedMultiplier(base, crouched, aiming, sprinting, crouchMultiplier, adsMultiplier, sprintMultiplier) == bcas;
  }

  /// Products of positive quantities lie between the products of their bounds.
  lemma MulBounds(x: real, y: real, xLo: real, xHi: real, yLo: real, yHi: real)
    requires 0.0 < xLo <= x <= xHi && 0.0 < yLo <= y <= yHi
    ensures xLo * yLo <= x * y <= xHi * yHi
  {
    assert xLo * yLo <= x * yLo <= x * y;
    assert x * y <= xHi * y <= xHi * yHi;
  }

  /// The focus calls one interaction update makes, given the interactable focused before
  /// and the one focused now: FocusLost to the previous one when it exists and is no longer
  /// focused, then FocusGained to the new one when it exists and was not focused before.
  /// Actors that do not implement the interface receive nothing.
  function FocusNotifications(last: Option<Actor>, current: Option<Actor>): (calls: seq<InteractableCall>)
    ensures forall a :: FocusLost(a) in calls <==> last == Some(a) && last != current && a.implementsInteractable
    ensures forall a :: FocusGained(a) in calls <==> current == Some(a) && current != last && a.implementsInteractable
    ensures forall a :: OnInteract(a) !in calls
    ensures last == current ==> calls == []
    ensures |calls| <= 2 && (|calls| == 2 ==> calls[0].FocusLost? && calls[1].FocusGained?)
  {
    var lost := if last.Some? && last != current && last.value.implementsInteractable
                then [FocusLost(last.value)] else [];
    var gained := if current.Some? && current != last && current.value.implementsInteractable
                  then [FocusGained(current.value)] else [];
    lost + gained
  }

  /// Look scaling. Without settings both sensitivities are 1 and pitch is not inverted.
  /// Yaw is x times the horizontal sensitivity; pitch is y times the vertical sensitivity
  /// with its sign flipped unless inversion is on (moving the mouse up looks up). While
  /// aiming, and only when settings exist, both are further scaled by the ADS multiplier.
  function LookScale(settings: Option<Settings.InputSettings>, aiming: bool, x: real, y: real): (yawPitch: (real, real))
    ensures settings.None? ==> yawPitch.0 == x && yawPitch.1 == -y
    ensures settings.Some? && !aiming ==>
              var i := settings.value;
              yawPitch.0 == x * i.mouseSensitivityX
              && yawPitch.1 == (if i.invertMouseY then y else -y) * i.mouseSensitivityY
    ensures settings.Some? && aiming ==>
              var i := settings.value;
              yawPitch.0 == x * i.mouseSensitivityX * i.adsSensitivityMultiplier
              && yawPitch.1 == (if i.invertMouseY then y else -y) * i.mouseSensitivityY * i.adsSensitivityMultiplier
  {
    var sensitivityX := if settings.Some? then settings.value.mouseSensitivityX else 1.0;
    var sensitivityY := if settings.Some? then settings.value.mouseSensitivityY else 1.0;
    var invertY := if settings.Some? then settings.value.invertMouseY else false;
    var ads := if aiming && settings.Some? then settings.value.adsSensitivityMultiplier else 1.0;
    (x * (sensitivityX * ads), y * (sensitivityY * ads) * (if invertY then 1.0 else -1.0))
  }

  class NohamCharacter {
    // Tuning (editable per instance).
    var movementSpeedMultiplier: real
    var crouchSpeedMultiplier: real
    var crouchedCapsuleHalfHeight: real
    var sprintSpeedMultiplier: real
    var canSprintWhileAiming: bool
    var adsFovMultiplier: real
    var adsSpeedMultiplier: real
    var enableLookSmoothing: bool

    // State the character owns.
    var wantsToSprint: bool
    var isAiming: bool
    var standingCapsuleHalfHeight: real
    var targetCapsuleHalfHeight: real
    var defaultFov: real
    var targetFov: real
    var currentInteractable: Option<Actor>
    var lastInteractable: Option<Actor>
    var currentLookX: real
    var currentLookY: real

    // Engine state: the movement component's walk speed and crouch request, and what the
    // character only reads.
    var maxWalkSpeed: real
    var wantsToCrouch: bool
    var isCrouched: bool
    var isFalling: bool
    var hasMovementComponent: bool
    var hasController: bool
    /// The input record of the settings subsystem, when the character found one.
    var settings: Option<Settings.InputSettings>

    /// Calls made on interactables, oldest first.
    var interactableCalls: seq<InteractableCall>

    /// The initial values of the class and its constructor.
    constructor ()
      ensures movementSpeedMultiplier == 1.0 && crouchSpeedMultiplier == 0.5 && crouchedCapsuleHalfHeight == 48.0
      ensures sprintSpeedMultiplier == 1.5 && !canSprintWhileAiming
      ensures adsFovMultiplier == 0.75 && adsSpeedMultiplier == 0.6 && !enableLookSmoothing
      ensures !wantsToSprint && !isAiming
      ensures standingCapsuleHalfHeight == 96.0 && targetCapsuleHalfHeight == 96.0
      ensures defaultFov == 90.0 && targetFov == 90.0
      ensures currentInteractable.None? && lastInteractable.None?
      ensures maxWalkSpeed == BaseWalkSpeed && !wantsToCrouch && !isCrouched && !isFalling
      ensures hasMovementComponent && !hasController && settings.None? && interactableCalls == []
    {
      movementSpeedMultiplier := 1.0;
      crouchSpeedMultiplier := 0.5;
      crouchedCapsuleHalfHeight := 48.0;
      sprintSpeedMultiplier := 1.5;
      canSprintWhileAiming := false;
      adsFovMultiplier := 0.75;
      adsSpeedMultiplier := 0.6;
      enableLookSmoothing := false;
      wantsToSprint := false;
      isAiming := false;
      standingCapsuleHalfHeight := 96.0;
      targetCapsuleHalfHeight := 96.0;
      defaultFov := 90.0;
      targetFov := 90.0;
      currentInteractable := None;
      lastInteractable := None;
      currentLookX := 0.0;
      currentLookY := 0.0;
      maxWalkSpeed := BaseWalkSpeed;
      wantsToCrouch := false;
      isCrouched := false;
      isFalling := false;
      hasMovementComponent := true;
      hasController := false;
      settings := None;
      interactableCalls := [];
    }

    function CanSprint(): (ok: bool)
      reads this
      ensures ok == SprintAllowed(isCrouched, isAiming, canSprintWhileAiming, hasMovementComponent, isFalling)
      ensures ok ==> !isCrouched
    {
      if isCrouched then false
      else if isAiming && !canSprintWhileAiming then false
      else if hasMovementComponent && isFalling then false
      else true
    }

    /// Sprinting is wanting to sprint where the gate allows it.
    function IsSprinting(): (sprinting: bool)
      reads this
      ensures sprinting <==> wantsToSprint && CanSprint()
      ensures sprinting ==> !isCrouched && (!isAiming || canSprintWhileAiming)
    {
      wantsToSprint && CanSprint()
    }

    function HasInteractableInFocus(): (focused: bool)
      reads this
      ensures focused <==> currentInteractable.Some?
    {
      currentInteractable.Some?
    }

    /// Settings fall back to sensitivity 1 and no inversion without a settings subsystem.
    function GetMouseSensitivityX(): (sensitivity: real)
      reads this`settings
      ensures settings.None? ==> sensitivity == 1.0
      ensures settings.Some? ==> sensitivity == settings.value.mouseSensitivityX
    {
      if settings.Some? then settings.value.mouseSensitivityX else 1.0
    }

    function GetMouseSensitivityY(): (sensitivity: real)
      reads this`settings
      ensures settings.None? ==> sensitivity == 1.0
      ensures settings.Some? ==> sensitivity == settings.value.mouseSensitivityY
    {
      if settings.Some? then settings.value.mouseSensitivityY else 1.0
    }

    function ShouldInvertMouseY(): (invert: bool)
      reads this`settings
      ensures settings.None? ==> !invert
      ensures settings.Some? ==> invert == settings.value.invertMouseY
    {
      if settings.Some? then settings.value.invertMouseY else false
    }

    /// The yaw and pitch input of a look axis value, before smoothing (see LookScale).
    /// Without a controller nothing is produced and nothing is stored.
    method Look(lookX: real, lookY: real) returns (scaled: Option<(real, real)>)
      modifies this`currentLookX, this`currentLookY
      ensures !hasController ==> scaled.None? && currentLookX == old(currentLookX) && currentLookY == old(currentLookY)
      ensures hasController ==> currentLookX == lookX && currentLookY == lookY
      ensures hasController ==> scaled.Some?
                                && scaled.value.0 == LookScale(settings, isAiming, lookX, lookY).0
                                && scaled.value.1 == LookScale(settings, isAiming, lookX, lookY).1
    {
      if !hasController {
        return None;
      }
      var sensitivityX := GetMouseSensitivityX();
      var sensitivityY := GetMouseSensitivityY();
      var invertY := ShouldInvertMouseY();
      if isAiming && settings.Some? {
        var adsMultiplier := settings.value.adsSensitivityMultiplier;
        sensitivityX := sensitivityX * adsMultiplier;
        sensitivityY := sensitivityY * adsMultiplier;
      }
      currentLookX, currentLookY := lookX, lookY;
      scaled := Some((lookX * sensitivityX, lookY * sensitivityY * (if invertY then 1.0 else -1.0)));
    }

    /// Movement input re-applies the plain multiplier to the walk speed (the movement input
    /// itself goes to the engine).
    method Move()
      modifies this`maxWalkSpeed
      ensures maxWalkSpeed == if hasController && hasMovementComponent then BaseWalkSpeed * movementSpeedMultiplier
                              else old(maxWalkSpeed)
    {
      if hasController {
        if hasMovementComponent {
          maxWalkSpeed := BaseWalkSpeed * movementSpeedMultiplier;
        }
      }
    }

    /// Stores the multiplier clamped to [0.1, 5] and applies it to the walk speed.
    method SetMovementSpeedMultiplier(newMultiplier: real)
      modifies this`movementSpeedMultiplier, this`maxWalkSpeed
      ensures movementSpeedMultiplier == Clamp(newMultiplier, 0.1, 5.0)
      ensures 0.1 <= movementSpeedMultiplier <= 5.0
      ensures maxWalkSpeed == if hasMovementComponent then BaseWalkSpeed * movementSpeedMultiplier else old(maxWalkSpeed)
    {
      movementSpeedMultiplier := Clamp(newMultiplier, 0.1, 5.0);
      if hasMovementComponent {
        maxWalkSpeed := BaseWalkSpeed * movementSpeedMultiplier;
      }
    }

    function GetMovementSpeedMultiplier(): real
      reads this
    {
      movementSpeedMultiplier
    }

    /// Requests a crouch and aims the capsule at the crouched half-height.
    method StartCrouch()
      modifies this`wantsToCrouch, this`targetCapsuleHalfHeight
      ensures wantsToCrouch && targetCapsuleHalfHeight == crouchedCapsuleHalfHeight
    {
      wantsToCrouch := true;
      targetCapsuleHalfHeight := crouchedCapsuleHalfHeight;
    }

    /// Requests standing up and aims the capsule at the standing half-height.
    method StopCrouch()
      modifies this`wantsToCrouch, this`targetCapsuleHalfHeight
      ensures !wantsToCrouch && targetCapsuleHalfHeight == standingCapsuleHalfHeight
    {
      wantsToCrouch := false;
      targetCapsuleHalfHeight := standingCapsuleHalfHeight;
    }

    method StartSprint()
      modifies this`wantsToSprint
      ensures wantsToSprint
    {
      wantsToSprint := true;
    }

    method StopSprint()
      modifies this`wantsToSprint
      ensures !wantsToSprint && !IsSprinting()
    {
      wantsToSprint := false;
    }

    /// Aiming narrows the target field of view by the ADS multiplier.
    method StartAim()
      modifies this`isAiming, this`targetFov
      ensures isAiming && targetFov == defaultFov * adsFovMultiplier
    {
      isAiming := true;
      targetFov := defaultFov * adsFovMultiplier;
    }

    method StopAim()
      modifies this`isAiming, this`targetFov
      ensures !isAiming && targetFov == defaultFov
    {
      isAiming := false;
      targetFov := defaultFov;
    }

    /// Recomputes the walk speed from the movement state, multiplier by multiplier.
    method UpdateMovementSpeed()
      modifies this`maxWalkSpeed
      ensures hasMovementComponent ==>
                maxWalkSpeed == BaseWalkSpeed * SpeedMultiplier(movementSpeedMultiplier, isCrouched, isAiming, IsSprinting(),
                                                                crouchSpeedMultiplier, adsSpeedMultiplier, sprintSpeedMultiplier)
      ensures !hasMovementComponent ==> maxWalkSpeed == old(maxWalkSpeed)
    {
      if !hasMovementComponent {
        return;
      }
      var finalMultiplier := movementSpeedMultiplier;
      if isCrouched {
        finalMultiplier := finalMultiplier * crouchSpeedMultiplier;
      }
      if isAiming {
        finalMultiplier := finalMultiplier * adsSpeedMultiplier;
      }
      if IsSprinting() {
        finalMultiplier := finalMultiplier * sprintSpeedMultiplier;
      }
      maxWalkSpeed := BaseWalkSpeed * finalMultiplier;
    }

    /// Interacting calls OnInteract on the focused actor when it implements the interface;
    /// with nothing in focus nothing happens. (OnInteract's own result is only logged.)
    method Interact()
      modifies this`interactableCalls
      ensures interactableCalls == if currentInteractable.Some? && currentInteractable.value.implementsInteractable
                                   then old(interactableCalls) + [OnInteract(currentInteractable.value)]
                                   else old(interactableCalls)
    {
      if currentInteractable.None? {
        return;
      }
      if currentInteractable.value.implementsInteractable {
        interactableCalls := interactableCalls + [OnInteract(currentInteractable.value)];
      }
    }

    /// One interaction update with the actor the trace found: the old focus becomes the
    /// last one, and the focus change is notified.
    method UpdateInteraction(traced: Option<Actor>)
      modifies this`lastInteractable, this`currentInteractable, this`interactableCalls
      ensures lastInteractable == old(currentInteractable) && currentInteractable == traced
      ensures interactableCalls == old(interactableCalls) + FocusNotifications(old(currentInteractable), traced)
    {
      lastInteractable := currentInteractable;
      currentInteractable := traced;
      NotifyInteractableFocusChanged();
    }

    method NotifyInteractableFocusChanged()
      modifies this`interactableCalls
      ensures interactableCalls == old(interactableCalls) + FocusNotifications(lastInteractable, currentInteractable)
    {
      if lastInteractable.Some? && lastInteractable != currentInteractable {
        if lastInteractable.value.implementsInteractable {
          interactableCalls := interactableCalls + [FocusLost(lastInteractable.value)];
        }
      }
      if currentInteractable.Some? && currentInteractable != lastInteractable {
        if currentInteractable.value.implementsInteractable {
          interactableCalls := interactableCalls + [FocusGained(currentInteractable.value)];
        }
      }
    }
  }
}
