/**
 * Screen navigation of `App`: one visibility flag per top-level window, changed by
 * `hide()`/`show()` sequences, and the buttons wired to those sequences.
 */
module Navigation {

  /** The four top-level windows. */
  datatype Window = Welcome | Main | Depixel | Compare

  /** The `isVisible()` flag of each window. */
  datatype Visibility = Visibility(welcome: bool, main: bool, depixel: bool, compare: bool)

  function IsVisible(v: Visibility, w: Window): bool {
    match w
    case Welcome => v.welcome
    case Main => v.main
    case Depixel => v.depixel
    case Compare => v.compare
  }

  /** Number of windows currently visible. */
  function VisibleCount(v: Visibility): nat {
    (if v.welcome then 1 else 0) + (if v.main then 1 else 0) +
    (if v.depixel then 1 else 0) + (if v.compare then 1 else 0)
  }

  predicate ExactlyOne(v: Visibility) {
    VisibleCount(v) == 1
  }

  /** Windows are created hidden. */
  const AllHidden := Visibility(false, false, false, false)

  /** Only `w` is visible. */
  function Only(w: Window): (v: Visibility)
    ensures ExactlyOne(v) && IsVisible(v, w)
  {
    Visibility(w == Welcome, w == Main, w == Depixel, w == Compare)
  }

  /** `w.hide()`: clears the flag of `w`, nothing else. */
  function Hide(v: Visibility, w: Window): (r: Visibility)
    ensures !IsVisible(r, w)
    ensures forall u :: u != w ==> IsVisible(r, u) == IsVisible(v, u)
  {
    match w
    case Welcome => v.(welcome := false)
    case Main => v.(main := false)
    case Depixel => v.(depixel := false)
    case Compare => v.(compare := false)
  }

  /** `w.show()`: sets the flag of `w`, nothing else. */
  function Show(v: Visibility, w: Window): (r: Visibility)
    ensures IsVisible(r, w)
    ensures forall u :: u != w ==> IsVisible(r, u) == IsVisible(v, u)
  {
    match w
    case Welcome => v.(welcome := true)
    case Main => v.(main := true)
    case Depixel => v.(depixel := true)
    case Compare => v.(compare := true)
  }

  /** A visibility state is determined by the four flags. */
  lemma VisibilityExtensionality(v: Visibility, u: Visibility)
    requires forall w :: IsVisible(v, w) == IsVisible(u, w)
    ensures v == u
  {
    assert IsVisible(v, Welcome) == IsVisible(u, Welcome);
    assert IsVisible(v, Main) == IsVisible(u, Main);
    assert IsVisible(v, Depixel) == IsVisible(u, Depixel);
    assert IsVisible(v, Compare) == IsVisible(u, Compare);
  }

  // ------------------------------------------------------------- transitions

  /** `show_welcome_screen`: whatever was visible, afterwards only Welcome is. */
  function ShowWelcomeScreen(v: Visibility): (r: Visibility)
    ensures r == Only(Welcome)
  {
    var r := Show(Hide(Hide(Hide(v, Main), Depixel), Compare), Welcome);
    VisibilityExtensionality(r, Only(Welcome));
    r
  }

  /** `show_main_screen`: whatever was visible, afterwards only Main is. */
  function ShowMainScreen(v: Visibility): (r: Visibility)
    ensures r == Only(Main)
  {
    var r := Show(Hide(Hide(Hide(v, Welcome), Depixel), Compare), Main);
    VisibilityExtensionality(r, Only(Main));
    r
  }

  /** `show_depixel_screen`: whatever was visible, afterwards only Depixel is. */
  function ShowDepixelScreen(v: Visibility): (r: Visibility)
    ensures r == Only(Depixel)
  {
    var r := Show(Hide(Hide(Hide(v, Main), Welcome), Compare), Depixel);
    VisibilityExtensionality(r, Only(Depixel));
    r
  }

  /** `show_compare_screen` hides only Depixel: Welcome and Main keep their flags. */
  function ShowCompareScreen(v: Visibility): (r: Visibility)
    ensures IsVisible(r, Compare) && !IsVisible(r, Depixel)
    ensures IsVisible(r, Welcome) == IsVisible(v, Welcome)
    ensures IsVisible(r, Main) == IsVisible(v, Main)
  {
    Show(Hide(v, Depixel), Compare)
  }

  /** From "only Depixel visible", `show_compare_screen` leaves exactly Compare visible. */
  lemma CompareFromDepixelOnly()
    ensures ShowCompareScreen(Only(Depixel)) == Only(Compare)
  {
  }

  /** `show_compare_screen` keeps exclusivity exactly when neither Welcome nor Main was visible. */
  lemma CompareExclusiveIff(v: Visibility)
    ensures ExactlyOne(ShowCompareScreen(v)) <==> !v.welcome && !v.main
  {
  }

  /** Exclusivity is not preserved by `show_compare_screen` in general. */
  lemma CompareNotAlwaysExclusive()
    ensures exists v :: ExactlyOne(v) && !ExactlyOne(ShowCompareScreen(v))
  {
    var v := Only(Welcome);
    assert ShowCompareScreen(v).welcome && ShowCompareScreen(v).compare;
  }

  // ------------------------------------------------------------------ buttons

  /** A click on one of the wired buttons, with the file dialog's answer where one is opened. */
  datatype Click =
    | EnterApp              // WelcomeWindow.pushButton -> show_main_screen
    | Upload(file: string)  // MainWindow.pushButton -> upload_image
    | Enhance               // MainWindow.pushButton_1 -> show_depixel_screen
    | BackToMain            // DepixelWindow.pushButton -> show_main_screen
    | CompareRequest        // DepixelWindow.pushButton_1 -> show_compare_screen
    | Save(path: string)    // DepixelWindow.pushButton_2 -> save_depixel_image
    | BackToEnhance         // CompareWindow.pushButton -> show_depixel_screen

  /** The window that holds the button. */
  function Owner(c: Click): Window {
    match c
    case EnterApp => Welcome
    case Upload(_) => Main
    case Enhance => Main
    case BackToMain => Depixel
    case CompareRequest => Depixel
    case Save(_) => Depixel
    case BackToEnhance => Compare
  }

  /** The visibility after a click; a hidden window's buttons receive no clicks. */
  function Press(v: Visibility, c: Click): Visibility {
    if !IsVisible(v, Owner(c)) then v
    else match c
      case EnterApp => ShowMainScreen(v)
      case Upload(_) => v
      case Enhance => ShowDepixelScreen(v)
      case BackToMain => ShowMainScreen(v)
      case CompareRequest => ShowCompareScreen(v)
      case Save(_) => v
      case BackToEnhance => ShowDepixelScreen(v)
  }

  /** The window each button is meant to lead to. */
  function Target(c: Click): Window {
    match c
    case EnterApp => Main
    case Upload(_) => Main
    case Enhance => Depixel
    case BackToMain => Main
    case CompareRequest => Compare
    case Save(_) => Depixel
    case BackToEnhance => Depixel
  }

  /** The window shown by a state with exactly one visible window. */
  function Current(v: Visibility): (w: Window)
    requires ExactlyOne(v)
    ensures v == Only(w)
  {
    var w := if v.welcome then Welcome else if v.main then Main else if v.depixel then Depixel else Compare;
    VisibilityExtensionality(v, Only(w));
    w
  }

  /**
   * The moves the buttons offer: Welcome to Main, Main to Enhance, Enhance to Main,
   * Enhance to Compare and Compare to Enhance.
   */
  predicate ScreenEdge(a: Window, b: Window) {
    || (a == Welcome && b == Main)
    || (a == Main && b == Depixel)
    || (a == Depixel && b == Main)
    || (a == Depixel && b == Compare)
    || (a == Compare && b == Depixel)
  }

  /** A click from a state with one visible window leaves one visible window, the same or one a screen edge leads to. */
  lemma PressKeepsExactlyOne(v: Visibility, c: Click)
    requires ExactlyOne(v)
    ensures ExactlyOne(Press(v, c))
    ensures Current(Press(v, c)) == Current(v) || ScreenEdge(Current(v), Current(Press(v, c)))
  {
  }

  /**
   * A click on a hidden window's button changes nothing; from a one-window state a click
   * on a visible button leaves exactly the button's target window visible.
   */
  lemma PressWiring(v: Visibility, c: Click)
    ensures !IsVisible(v, Owner(c)) ==> Press(v, c) == v
    ensures ExactlyOne(v) && IsVisible(v, Owner(c)) ==> Press(v, c) == Only(Target(c))
  {
  }

  /** Every screen edge is taken by some button of the window being left. */
  lemma EveryScreenEdgeWired(a: Window, b: Window)
    requires ScreenEdge(a, b)
    ensures exists c :: Owner(c) == a && Press(Only(a), c) == Only(b)
  {
    var c := if a == Welcome then EnterApp
      else if a == Main then Enhance
      else if a == Compare then BackToEnhance
      else if b == Main then BackToMain
      else CompareRequest;
    if c == CompareRequest {
      CompareFromDepixelOnly();
    }
    assert Owner(c) == a && Press(Only(a), c) == Only(b);
  }
}
