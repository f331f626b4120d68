/**
 * The main menu: three options, and an accessibility mode in which one tap
 * focuses and reads an option aloud and a second tap on the same option within
 * 400 ms opens it. Times are the millisecond clock readings of each tap.
 */
module MainMenu {
  import opened Wrappers

  datatype MenuOption = MenuOption(title: string, route: string)

  /** The options in screen order; `route` is where the option's action navigates. */
  const MenuOptions: seq<MenuOption> := [
    MenuOption("Tomemos una foto", "/camera"),
    MenuOption("Carguemos una foto", "/gallery"),
    MenuOption("Cómo usar la app", "/about")
  ]

  /** Two taps closer together than this, on the same option, make a double tap. */
  const DoubleTapDelay: int := 400

  /** Whether a tap on `index` at `now` completes a double tap. */
  predicate IsDoubleTap(lastTap: int, lastTouchedButton: int, index: int, now: int)
  {
    now - lastTap < DoubleTapDelay && lastTouchedButton == index
  }

  /** The menu has exactly the camera, gallery and about options, in that order. */
  lemma MenuRoutes()
    ensures |MenuOptions| == 3
    ensures MenuOptions[0].route == "/camera"
    ensures MenuOptions[1].route == "/gallery"
    ensures MenuOptions[2].route == "/about"
  {
  }

  class Menu {
    var accessibilityMode: bool
    /** -1 when no option is focused. */
    var focusedIndex: int
    var lastTap: int
    /** -1 before any option has been touched. */
    var lastTouchedButton: int

    /** Focus and last touched option are each "none" or a real option. */
    ghost predicate Valid()
      reads this
    {
      -1 <= focusedIndex < |MenuOptions| && -1 <= lastTouchedButton < |MenuOptions|
    }

    constructor ()
      ensures Valid()
      ensures !accessibilityMode && focusedIndex == -1
      ensures lastTap == 0 && lastTouchedButton == -1
    {
      accessibilityMode := false;
      focusedIndex := -1;
      lastTap := 0;
      lastTouchedButton := -1;
    }

    /** Flip the mode; turning it on focuses the first option, turning it off clears the focus. */
    method ToggleAccessibilityMode()
      requires Valid()
      modifies this`accessibilityMode, this`focusedIndex
      ensures Valid()
      ensures accessibilityMode == !old(accessibilityMode)
      ensures focusedIndex == if accessibilityMode then 0 else -1
    {
      var newMode := !accessibilityMode;
      accessibilityMode := newMode;
      if newMode {
        focusedIndex := 0;
      } else {
        focusedIndex := -1;
      }
    }

    /** Focus option `index` when it exists; any other index is ignored. */
    method FocusItem(index: int)
      requires Valid()
      modifies this`focusedIndex
      ensures Valid()
      ensures 0 <= index < |MenuOptions| ==> focusedIndex == index
      ensures !(0 <= index < |MenuOptions|) ==> focusedIndex == old(focusedIndex)
    {
      if index >= 0 && index < |MenuOptions| {
        focusedIndex := index;
      }
    }

    /**
     * A tap in accessibility mode. A double tap opens the option (its route is
     * returned in `fired`) and leaves the focus and the last touched option
     * alone; any other tap focuses the option and remembers it. Either way the
     * tap's time is remembered.
     */
    method HandleButtonTouch(index: int, now: int) returns (fired: Option<string>)
      requires Valid()
      requires 0 <= index < |MenuOptions|
      modifies this`focusedIndex, this`lastTap, this`lastTouchedButton
      ensures Valid()
      ensures fired.Some? <==> IsDoubleTap(old(lastTap), old(lastTouchedButton), index, now)
      ensures fired.Some? ==> fired.value == MenuOptions[index].route
      ensures fired.Some? ==> focusedIndex == old(focusedIndex) && lastTouchedButton == old(lastTouchedButton)
      ensures fired.None? ==> focusedIndex == index && lastTouchedButton == index
      ensures lastTap == now
    {
      if now - lastTap < DoubleTapDelay && lastTouchedButton == index {
        fired := Some(MenuOptions[index].route);
      } else {
        FocusItem(index);
        lastTouchedButton := index;
        fired := None;
      }
      lastTap := now;
    }

    /**
     * A press on option `index`: in accessibility mode it goes through the tap
     * logic; otherwise the option opens at once and no tap state is read or written.
     */
    method Press(index: int, now: int) returns (fired: Option<string>)
      requires Valid()
      requires 0 <= index < |MenuOptions|
      modifies this`focusedIndex, this`lastTap, this`lastTouchedButton
      ensures Valid()
      ensures !accessibilityMode ==> fired == Some(MenuOptions[index].route)
      ensures !accessibilityMode ==>
        focusedIndex == old(focusedIndex) && lastTap == old(lastTap) && lastTouchedButton == old(lastTouchedButton)
      ensures accessibilityMode ==>
        (fired.Some? <==> IsDoubleTap(old(lastTap), old(lastTouchedButton), index, now))
      ensures accessibilityMode && fired.Some? ==>
        fired.value == MenuOptions[index].route &&
        focusedIndex == old(focusedIndex) && lastTouchedButton == old(lastTouchedButton)
      ensures accessibilityMode && fired.None? ==> focusedIndex == index && lastTouchedButton == index
      ensures accessibilityMode ==> lastTap == now
    {
      if accessibilityMode {
        fired := HandleButtonTouch(index, now);
      } else {
        fired := Some(MenuOptions[index].route);
      }
    }

    /** The delayed effect after the mode is switched on: focus the first option again. */
    method FocusFirstAfterActivation()
      requires Valid()
      modifies this`focusedIndex
      ensures Valid()
      ensures focusedIndex == 0
    {
      FocusItem(0);
    }
  }

  /**
   * From a fresh menu: switch the mode on, tap option `index` at `t`, tap it
   * again `gap` ms later. The first tap only focuses; the second opens the option.
   */
  method DoubleTapOpens(index: int, t: int, gap: int) returns (first: Option<string>, second: Option<string>)
    requires 0 <= index < |MenuOptions|
    requires 0 <= gap < DoubleTapDelay
    ensures first == None
    ensures second == Some(MenuOptions[index].route)
  {
    var menu := new Menu();
    menu.ToggleAccessibilityMode();
    first := menu.Press(index, t);
    second := menu.Press(index, t + gap);
  }

  /**
   * From a fresh menu with the mode switched on: a run of taps in which no
   * option is tapped twice in a row never opens anything, whatever the tap times.
   */
  method AlternatingTapsNeverOpen(taps: seq<int>, times: seq<int>) returns (fired: seq<Option<string>>)
    requires |times| == |taps|
    requires forall k :: 0 <= k < |taps| ==> 0 <= taps[k] < |MenuOptions|
    requires forall k :: 0 < k < |taps| ==> taps[k] != taps[k - 1]
    ensures |fired| == |taps|
    ensures forall k :: 0 <= k < |fired| ==> fired[k] == None
  {
    var menu := new Menu();
    menu.ToggleAccessibilityMode();
    fired := [];
    var k := 0;
    while k < |taps|
      invariant 0 <= k <= |taps|
      invariant menu.Valid() && menu.accessibilityMode
      invariant k == 0 ==> menu.lastTouchedButton == -1
      invariant k > 0 ==> menu.lastTouchedButton == taps[k - 1]
      invariant |fired| == k
      invariant forall m :: 0 <= m < k ==> fired[m] == None
    {
      var f := menu.Press(taps[k], times[k]);
      fired := fired + [f];
      k := k + 1;
    }
  }
}
