/// Moving the selection of a main menu: the up, down and tab updaters that wrap around
/// and step past disabled items, the gamepad's rising-edge detection, and the keys the
/// menus listen to. Both main menus (the NEON one and the shadcn one) share this code
/// word for word; the menus themselves are in MainMenu and ShadcnMenu.
///
/// A menu is seen here through the disabled flags of its items, in order.
module MenuNavigation {

  // ---------------------------------------------------------------- selection

  /// The index `k` steps after `prev`, wrapping around; 1 <= k <= n.
  function Forward(prev: nat, k: nat, n: nat): nat
    requires prev < n && 1 <= k <= n
  {
    if prev + k < n then prev + k else prev + k - n
  }

  /// The index `k` steps before `prev`, wrapping around.
  function Backward(prev: nat, k: nat, n: nat): nat
    requires prev < n && 1 <= k <= n
  {
    if prev >= k then prev - k else prev + n - k
  }

  /// How many steps forward lead from `prev` to `next`; n when they are equal.
  function ForwardDistance(prev: nat, next: nat, n: nat): int
  {
    if next > prev then next - prev else next + n - prev
  }

  /// How many steps backward lead from `prev` to `next`; n when they are equal.
  function BackwardDistance(prev: nat, next: nat, n: nat): int
  {
    if next < prev then prev - next else prev + n - next
  }

  /// The skip loop going forward from the k-th step.
  function DownFrom(disabled: seq<bool>, prev: nat, k: nat): nat
    requires prev < |disabled| && 1 <= k <= |disabled|
    decreases |disabled| - k
  {
    var i := Forward(prev, k, |disabled|);
    if disabled[i] && i != prev then DownFrom(disabled, prev, k + 1) else i
  }

  /// The skip loop going backward from the k-th step.
  function UpFrom(disabled: seq<bool>, prev: nat, k: nat): nat
    requires prev < |disabled| && 1 <= k <= |disabled|
    decreases |disabled| - k
  {
    var i := Backward(prev, k, |disabled|);
    if disabled[i] && i != prev then UpFrom(disabled, prev, k + 1) else i
  }

  /// The selection after Down (ArrowDown, s, S, the d-pad or stick down, Tab).
  function Down(disabled: seq<bool>, prev: nat): nat
    requires prev < |disabled|
  {
    DownFrom(disabled, prev, 1)
  }

  /// The selection after Up (ArrowUp, w, W, the d-pad or stick up, Shift+Tab).
  function Up(disabled: seq<bool>, prev: nat): nat
    requires prev < |disabled|
  {
    UpFrom(disabled, prev, 1)
  }

  lemma {:induction false} DownFromSpec(disabled: seq<bool>, prev: nat, k: nat)
    requires prev < |disabled| && 1 <= k <= |disabled|
    ensures var n := |disabled|; var r := DownFrom(disabled, prev, k); var j := ForwardDistance(prev, r, n);
      k <= j <= n && r == Forward(prev, j, n) && (j == n || !disabled[r])
      && forall m :: k <= m < j ==> disabled[Forward(prev, m, n)]
    decreases |disabled| - k
  {
    var n := |disabled|;
    var i := Forward(prev, k, n);
    assert ForwardDistance(prev, i, n) == k;
    if disabled[i] && i != prev {
      DownFromSpec(disabled, prev, k + 1);
    }
  }

  lemma {:induction false} UpFromSpec(disabled: seq<bool>, prev: nat, k: nat)
    requires prev < |disabled| && 1 <= k <= |disabled|
    ensures var n := |disabled|; var r := UpFrom(disabled, prev, k); var j := BackwardDistance(prev, r, n);
      k <= j <= n && r == Backward(prev, j, n) && (j == n || !disabled[r])
      && forall m :: k <= m < j ==> disabled[Backward(prev, m, n)]
    decreases |disabled| - k
  {
    var n := |disabled|;
    var i := Backward(prev, k, n);
    assert BackwardDistance(prev, i, n) == k;
    if disabled[i] && i != prev {
      UpFromSpec(disabled, prev, k + 1);
    }
  }

  /// Down selects the first enabled item after `prev` in wrap-around order, having
  /// stepped only past disabled items; when every other item is disabled it stays on
  /// `prev`. The result is always an index of the menu.
  lemma DownIsNextEnabled(disabled: seq<bool>, prev: nat)
    requires prev < |disabled|
    ensures Down(disabled, prev) < |disabled|
    ensures Down(disabled, prev) == prev || !disabled[Down(disabled, prev)]
    ensures forall m :: 1 <= m < ForwardDistance(prev, Down(disabled, prev), |disabled|) ==>
      disabled[Forward(prev, m, |disabled|)]
  {
    DownFromSpec(disabled, prev, 1);
  }

  /// Up selects the first enabled item before `prev` in wrap-around order, or `prev`.
  lemma UpIsPreviousEnabled(disabled: seq<bool>, prev: nat)
    requires prev < |disabled|
    ensures Up(disabled, prev) < |disabled|
    ensures Up(disabled, prev) == prev || !disabled[Up(disabled, prev)]
    ensures forall m :: 1 <= m < BackwardDistance(prev, Up(disabled, prev), |disabled|) ==>
      disabled[Backward(prev, m, |disabled|)]
  {
    UpFromSpec(disabled, prev, 1);
  }

  /// Up and Down select an index of the menu.
  lemma StepsStayInMenu(disabled: seq<bool>, prev: nat)
    requires prev < |disabled|
    ensures Up(disabled, prev) < |disabled| && Down(disabled, prev) < |disabled|
  {
    UpIsPreviousEnabled(disabled, prev);
    DownIsNextEnabled(disabled, prev);
  }

  /// From an enabled item, Up and Down land on an enabled item.
  lemma StepsKeepEnabled(disabled: seq<bool>, prev: nat)
    requires prev < |disabled| && !disabled[prev]
    ensures Up(disabled, prev) < |disabled| && !disabled[Up(disabled, prev)]
    ensures Down(disabled, prev) < |disabled| && !disabled[Down(disabled, prev)]
  {
    UpIsPreviousEnabled(disabled, prev);
    DownIsNextEnabled(disabled, prev);
  }

  /// `x % n` for 0 <= x < 2n.
  lemma ModOnce(x: int, n: int)
    requires 0 < n && 0 <= x < 2 * n
    ensures x % n == if x < n then x else x - n
  {
    if x < n {
      assert x == 0 * n + x;
    } else {
      assert x == 1 * n + (x - n);
    }
  }

  /// With no disabled item, Down is (prev + 1) mod n and Up is (prev - 1) mod n.
  lemma AllEnabledSteps(disabled: seq<bool>, prev: nat)
    requires prev < |disabled|
    requires forall i :: 0 <= i < |disabled| ==> !disabled[i]
    ensures Down(disabled, prev) == (prev + 1) % |disabled|
    ensures Up(disabled, prev) == (prev - 1) % |disabled|
  {
    var n := |disabled|;
    ModOnce(prev + 1, n);
    ModOnce(prev - 1 + n, n);
    assert (prev - 1) % n == (prev - 1 + n) % n by {
      assert prev - 1 + n == (prev - 1) + 1 * n;
    }
  }

  /// The down updater as written: step with `% n` until an enabled item or `prev`.
  method SelectDown(disabled: seq<bool>, prev: nat) returns (next: nat)
    requires prev < |disabled|
    ensures next == Down(disabled, prev)
  {
    var n := |disabled|;
    ModOnce(prev + 1, n);
    next := (prev + 1) % n;
    ghost var k := 1;
    while disabled[next] && next != prev
      invariant 1 <= k <= n && next == Forward(prev, k, n)
      invariant DownFrom(disabled, prev, k) == Down(disabled, prev)
      decreases n - k
    {
      ModOnce(next + 1, n);
      next := (next + 1) % n;
      k := k + 1;
    }
  }

  /// The up updater as written: decrement, wrapping below zero to n - 1.
  method SelectUp(disabled: seq<bool>, prev: nat) returns (next: nat)
    requires prev < |disabled|
    ensures next == Up(disabled, prev)
  {
    var n := |disabled|;
    var index: int := prev - 1;
    if index < 0 {
      index := n - 1;
    }
    ghost var k := 1;
    while disabled[index] && index != prev
      invariant 1 <= k <= n && index == Backward(prev, k, n)
      invariant UpFrom(disabled, prev, k) == Up(disabled, prev)
      decreases n - k
    {
      index := index - 1;
      if index < 0 {
        index := n - 1;
      }
      k := k + 1;
    }
    next := index;
  }

  /// The Tab updater: forward, or backward with Shift, wrapping at both ends; it moves
  /// exactly as Down and Up do.
  method SelectTab(disabled: seq<bool>, prev: nat, shiftKey: bool) returns (next: nat)
    requires prev < |disabled|
    ensures next == if shiftKey then Up(disabled, prev) else Down(disabled, prev)
  {
    var n := |disabled|;
    var index: int := if shiftKey then prev - 1 else prev + 1;
    if index < 0 {
      index := n - 1;
    }
    if index >= n {
      index := 0;
    }
    ghost var k := 1;
    while disabled[index] && index != prev
      invariant 1 <= k <= n
      invariant index == if shiftKey then Backward(prev, k, n) else Forward(prev, k, n)
      invariant (if shiftKey then UpFrom(disabled, prev, k) else DownFrom(disabled, prev, k)) ==
        (if shiftKey then Up(disabled, prev) else Down(disabled, prev))
      decreases n - k
    {
      index := if shiftKey then index - 1 else index + 1;
      if index < 0 {
        index := n - 1;
      }
      if index >= n {
        index := 0;
      }
      k := k + 1;
    }
    next := index;
  }

  // ---------------------------------------------------------------- keys

  /// What a key does on a main menu.
  datatype KeyAction = MoveUp | MoveDown | Activate | Escape | TabMove | NoAction

  /// The switch on event.key; the comparison is exact (case matters for named keys).
  function KeyActionOf(key: string): KeyAction
  {
    if key in {"ArrowUp", "w", "W"} then MoveUp
    else if key in {"ArrowDown", "s", "S"} then MoveDown
    else if key in {"Enter", " "} then Activate
    else if key == "Escape" then Escape
    else if key == "Tab" then TabMove
    else NoAction
  }

  // ---------------------------------------------------------------- gamepad

  /// The first gamepad at one poll: the d-pad up and down buttons (12, 13), the left
  /// stick's vertical axis, and the A and B buttons (0, 1).
  datatype Gamepad = Gamepad(dpadUp: bool, dpadDown: bool, stickY: real, a: bool, b: bool)

  /// The four states the poll remembers.
  datatype Buttons = Buttons(up: bool, down: bool, a: bool, b: bool)

  /// lastButtonStates = {}: every lookup is undefined, so nothing counts as held.
  const Released: Buttons := Buttons(false, false, false, false)

  /// Up is the d-pad or the stick above 0.5 upward; down likewise.
  function Pressed(pad: Gamepad): (b: Buttons)
    ensures b.up <==> pad.dpadUp || pad.stickY < -0.5
    ensures b.down <==> pad.dpadDown || pad.stickY > 0.5
  {
    Buttons(pad.dpadUp || pad.stickY < -0.5, pad.dpadDown || pad.stickY > 0.5, pad.a, pad.b)
  }

  /// The actions of one poll: a button fires when pressed now and not at the last poll.
  function Rising(now: Buttons, last: Buttons): Buttons
  {
    Buttons(now.up && !last.up, now.down && !last.down, now.a && !last.a, now.b && !last.b)
  }

  /// The selection after a poll that fired `fired`: up first, then down on the result.
  function PollSelection(flags: seq<bool>, prev: nat, fired: Buttons): (next: nat)
    requires prev < |flags|
    ensures next < |flags|
  {
    var afterUp := if fired.up then Up(flags, prev) else prev;
    StepsStayInMenu(flags, prev);
    StepsStayInMenu(flags, afterUp);
    if fired.down then Down(flags, afterUp) else afterUp
  }

  /// The two selection updates of one poll, as the source makes them: Up when up fired,
  /// then Down from the result when down fired.
  method MovePoll(flags: seq<bool>, start: nat, fired: Buttons) returns (next: nat)
    requires start < |flags|
    ensures next == PollSelection(flags, start, fired)
  {
    next := start;
    StepsStayInMenu(flags, start);
    if fired.up {
      next := SelectUp(flags, next);
    }
    StepsStayInMenu(flags, next);
    if fired.down {
      next := SelectDown(flags, next);
    }
  }

  /// A poll that starts on an enabled item ends on one.
  lemma PollKeepsEnabled(flags: seq<bool>, prev: nat, fired: Buttons)
    requires prev < |flags| && !flags[prev]
    ensures !flags[PollSelection(flags, prev, fired)]
  {
    StepsKeepEnabled(flags, prev);
    StepsKeepEnabled(flags, if fired.up then Up(flags, prev) else prev);
  }

  /// The actions fired over successive polls, starting from `last`.
  function Fired(polls: seq<Buttons>, last: Buttons): (f: seq<Buttons>)
    ensures |f| == |polls|
    decreases |polls|
  {
    if polls == [] then [] else [Rising(polls[0], last)] + Fired(polls[1..], polls[0])
  }

  /// Holding a button fires it once: after a poll that fired it, it fires again only after
  /// a poll at which it was released.
  lemma {:induction false} HeldButtonFiresOnce(polls: seq<Buttons>, last: Buttons, i: nat)
    requires 0 < i < |polls|
    ensures Fired(polls, last)[i] == Rising(polls[i], polls[i - 1])
    ensures Fired(polls, last)[i].up ==> !polls[i - 1].up
    ensures Fired(polls, last)[i].down ==> !polls[i - 1].down
    ensures Fired(polls, last)[i].a ==> !polls[i - 1].a
    ensures Fired(polls, last)[i].b ==> !polls[i - 1].b
    decreases i
  {
    if i > 1 {
      HeldButtonFiresOnce(polls[1..], polls[0], i - 1);
    }
  }

  /// A fresh poller (lastButtonStates = {}) fires every button that is down.
  lemma FreshPollFiresHeldButtons(now: Buttons)
    ensures Rising(now, Released) == now
    ensures Rising(now, now) == Released
  {
  }
}
