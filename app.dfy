/**
 * The application object `App` with its four windows: per-window visibility, the
 * session fields `current_image_path` and `depixel_image`, what each window's scene
 * shows, the entry logic of the Enhance and Compare screens, upload, save and the
 * three wheel handlers. Every method that changes the session is proved to take it
 * to the state the matching function of module Session gives.
 *
 * `load_image` and the enhancement network are collaborators the model cannot see:
 * they are fixed at construction as arbitrary functions. File dialogs become the
 * string they return (empty when cancelled). A ghost trace records the order of the
 * wait dialog, image loading and inference steps.
 */
module Application {
  import opened Wrappers
  import opened Pipeline
  import opened Navigation
  import opened Viewport
  import Session

  class App {
    var welcomeVisible: bool
    var mainVisible: bool
    var depixelVisible: bool
    var compareVisible: bool

    var currentImagePath: Option<string>
    var depixelImage: Option<Raster>

    /** The file shown by MainWindow's scene. */
    var mainShown: Option<string>
    /** The raster shown by DepixelWindow's scene. */
    var depixelShown: Option<Raster>
    /** The original file and the result shown side by side by CompareWindow. */
    var compareShown: Option<(string, Raster)>

    /** Every `process_image` step taken so far, in order. */
    ghost var trace: seq<Session.Event>

    const loadImage: string -> Option<Raster>
    const model: Model

    /** MainWindow.graphicsView, DepixelWindow.graphicsView, CompareWindow.graphicsView and .graphicsView_1. */
    const mainView: View
    const depixelView: View
    const originalView: View
    const resultView: View

    function Vis(): Visibility
      reads this
    {
      Visibility(welcomeVisible, mainVisible, depixelVisible, compareVisible)
    }

    /** The session this object holds. */
    ghost function State(): Session.State
      reads this
    {
      Session.State(Vis(), currentImagePath, depixelImage, mainShown, depixelShown, compareShown, trace)
    }

    function Env(): Session.Env {
      Session.Env(loadImage, model)
    }

    /** The transforms of the four views: Main, Enhance, Compare's original and result. */
    ghost function Views(): (Transform, Transform, Transform, Transform)
      reads this, mainView, depixelView, originalView, resultView
    {
      (mainView.Current(), depixelView.Current(), originalView.Current(), resultView.Current())
    }

    ghost predicate Valid()
      reads this, mainView, depixelView, originalView, resultView
    {
      && Session.Consistent(State())
      && mainView != depixelView && mainView != originalView && mainView != resultView
      && depixelView != originalView && depixelView != resultView
      && originalView != resultView
      && mainView.Valid() && depixelView.Valid() && originalView.Valid() && resultView.Valid()
    }

    /** `App.__init__`: four hidden windows with fresh views and an empty session. */
    constructor (loadImage: string -> Option<Raster>, model: Model)
      ensures Valid()
      ensures State() == Session.Initial
      ensures Env() == Session.Env(loadImage, model)
      ensures fresh(mainView) && fresh(depixelView) && fresh(originalView) && fresh(resultView)
    {
      this.loadImage := loadImage;
      this.model := model;
      mainView := new View();
      depixelView := new View();
      originalView := new View();
      resultView := new View();
      welcomeVisible, mainVisible, depixelVisible, compareVisible := false, false, false, false;
      currentImagePath, depixelImage := None, None;
      mainShown, depixelShown, compareShown := None, None, None;
      trace := [];
    }

    // ------------------------------------------------------------ navigation

    /** `show_welcome_screen`. */
    method ShowWelcomeScreen()
      requires Valid()
      modifies this
      ensures Valid()
      ensures State() == Session.EnterWelcome(old(State()))
    {
      mainVisible := false;
      depixelVisible := false;
      compareVisible := false;
      welcomeVisible := true;
    }

    /** `show_main_screen`. */
    method ShowMainScreen()
      requires Valid()
      modifies this
      ensures Valid()
      ensures State() == Session.EnterMain(old(State()))
    {
      welcomeVisible := false;
      depixelVisible := false;
      compareVisible := false;
      mainVisible := true;
    }

    /** `show_depixel_screen`; showing a hidden Depixel window delivers its showEvent. */
    method ShowDepixelScreen() returns (err: Option<PipelineError>)
      requires Valid()
      modifies this, depixelView
      ensures Valid()
      ensures Session.Outcome(State(), err) == Session.EnterDepixel(old(State()), Env())
      ensures !Session.EnterDepixelDisplays(old(State()), Env()) ==> Views() == old(Views())
    {
      mainVisible := false;
      welcomeVisible := false;
      compareVisible := false;
      if !depixelVisible {
        depixelVisible := true;
        err := DepixelShowEvent();
      } else {
        err := None;
      }
    }

    /** `show_compare_screen`: only the Depixel window is hidden first. */
    method ShowCompareScreen()
      requires Valid()
      modifies this, originalView, resultView
      ensures Valid()
      ensures State() == Session.EnterCompare(old(State()))
      ensures !Session.EnterCompareDisplays(old(State())) ==> Views() == old(Views())
    {
      depixelVisible := false;
      if !compareVisible {
        compareVisible := true;
        CompareShowEvent();
      }
    }

    // ------------------------------------------------------------ MainWindow

    /** `upload_image`, given the name the open-file dialog returned ("" when cancelled). */
    method UploadImage(fileName: string)
      requires Valid()
      modifies this, mainView
      ensures Valid()
      ensures State() == Session.UploadImage(old(State()), fileName)
      ensures fileName == "" ==> Views() == old(Views())
    {
      if fileName != "" {
        mainShown := Some(fileName);
        mainView.FitInView();
        currentImagePath := Some(fileName);
      }
    }

    /** `MainWindow.wheelEvent`: always accepted. */
    method MainWheelEvent(e: WheelInput, pow: real -> real) returns (accepted: bool)
      requires Valid() && PositiveFactor(pow)
      modifies mainView
      ensures Valid()
      ensures accepted
      ensures mainView.Current() == WheelEffect(old(mainView.Current()), e, pow)
    {
      mainView.HandleWheel(e, pow);
      accepted := true;
    }

    // ---------------------------------------------------------- DepixelWindow

    /** `DepixelWindow.showEvent`. */
    method DepixelShowEvent() returns (err: Option<PipelineError>)
      requires Valid()
      modifies this, depixelView
      ensures Valid()
      ensures Session.Outcome(State(), err) == Session.DepixelShowEvent(old(State()), Env())
      ensures !Session.DepixelShowDisplays(old(State()), Env()) ==> Views() == old(Views())
    {
      if Session.HasPath(currentImagePath) && depixelImage.None? {
        err := ProcessImage();
      } else if depixelImage.Some? {
        DisplayImage(depixelImage.value);
        err := None;
      } else {
        err := None;
      }
    }

    /** `process_image`; `err` is the exception `run_depixelation` raised, if any. */
    method ProcessImage() returns (err: Option<PipelineError>)
      requires Valid() && currentImagePath.Some?
      modifies this, depixelView
      ensures Valid()
      ensures Session.Outcome(State(), err) == Session.ProcessImage(old(State()), Env())
      ensures !Session.ProcessDisplays(old(State()), Env()) ==> Views() == old(Views())
    {
      var path := currentImagePath.value;
      trace := trace + [Session.WaitShown];
      var image := loadImage(path);
      trace := trace + [Session.ImageLoaded(path)];
      if image.Some? {
        trace := trace + [Session.Inferred];
        var output := RunDepixelation(model, image.value);
        if output.Err? {
          err := Some(output.error);
          return;
        }
        depixelImage := Some(output.value);
        DisplayImage(output.value);
      }
      trace := trace + [Session.WaitClosed];
      err := None;
    }

    /** `display_image`: the Depixel scene shows `img`, fitted to the view. */
    method DisplayImage(img: Raster)
      requires Valid()
      modifies this, depixelView
      ensures Valid()
      ensures State() == old(State()).(depixelShown := Some(img))
    {
      depixelShown := Some(img);
      depixelView.FitInView();
    }

    /**
     * `save_depixel_image`, given the name the save-file dialog would return: the file and
     * raster written, when there is a result and the dialog was not cancelled.
     */
    method SaveDepixelImage(dialogPath: string) returns (written: Option<(string, Raster)>)
      ensures written.Some? <==> depixelImage.Some? && dialogPath != ""
      ensures written.Some? ==> written.value == (dialogPath, depixelImage.value)
    {
      written := None;
      if depixelImage.Some? {
        var filePath := dialogPath;
        if filePath != "" {
          written := Some((filePath, depixelImage.value));
        }
      }
    }

    /** `DepixelWindow.wheelEvent`: always accepted. */
    method DepixelWheelEvent(e: WheelInput, pow: real -> real) returns (accepted: bool)
      requires Valid() && PositiveFactor(pow)
      modifies depixelView
      ensures Valid()
      ensures accepted
      ensures depixelView.Current() == WheelEffect(old(depixelView.Current()), e, pow)
    {
      depixelView.HandleWheel(e, pow);
      accepted := true;
    }

    // ---------------------------------------------------------- CompareWindow

    /** `CompareWindow.showEvent`: both images are shown only when there is a path and a result. */
    method CompareShowEvent()
      requires Valid()
      modifies this, originalView, resultView
      ensures Valid()
      ensures State() == Session.CompareShowEvent(old(State()))
      ensures !Session.CompareShowDisplays(old(State())) ==> Views() == old(Views())
    {
      if Session.HasPath(currentImagePath) && depixelImage.Some? {
        compareShown := Some((currentImagePath.value, depixelImage.value));
        originalView.FitInView();
        resultView.FitInView();
      }
    }

    /**
     * `CompareWindow.wheelEvent`: the view under the cursor is targeted, the original-image
     * view first; with neither under the cursor nothing changes and the event is not accepted.
     */
    method CompareWheelEvent(e: WheelInput, originalUnderMouse: bool, resultUnderMouse: bool, pow: real -> real)
      returns (accepted: bool)
      requires Valid() && PositiveFactor(pow)
      modifies originalView, resultView
      ensures Valid()
      ensures accepted <==> originalUnderMouse || resultUnderMouse
      ensures originalUnderMouse ==>
                && originalView.Current() == WheelEffect(old(originalView.Current()), e, pow)
                && resultView.Current() == old(resultView.Current())
      ensures !originalUnderMouse && resultUnderMouse ==>
                && resultView.Current() == WheelEffect(old(resultView.Current()), e, pow)
                && originalView.Current() == old(originalView.Current())
      ensures !originalUnderMouse && !resultUnderMouse ==>
                && originalView.Current() == old(originalView.Current())
                && resultView.Current() == old(resultView.Current())
    {
      var target: View? := null;
      if originalUnderMouse {
        target := originalView;
      } else if resultUnderMouse {
        target := resultView;
      }
      accepted := false;
      if target != null {
        target.HandleWheel(e, pow);
        accepted := true;
      }
    }

    // ---------------------------------------------------------------- buttons

    /**
     * A click on one of the wired buttons. A button of a hidden window receives nothing.
     * `err` is an exception escaping the Enhance screen's entry, `written` what Save writes.
     */
    method Press(c: Click) returns (err: Option<PipelineError>, written: Option<(string, Raster)>)
      requires Valid()
      modifies this, mainView, depixelView, originalView, resultView
      ensures Valid()
      ensures Session.Step(State(), err, written) == Session.Handle(old(State()), c, Env())
      ensures !Session.RefitsMain(old(State()), c) ==> mainView.Current() == old(mainView.Current())
      ensures !Session.RefitsDepixel(old(State()), c, Env()) ==> depixelView.Current() == old(depixelView.Current())
      ensures !Session.RefitsCompare(old(State()), c) ==>
                && originalView.Current() == old(originalView.Current())
                && resultView.Current() == old(resultView.Current())
    {
      err, written := None, None;
      if !IsVisible(Vis(), Owner(c)) {
        return;
      }
      match c
      case EnterApp =>
        ShowMainScreen();
      case Upload(file) =>
        UploadImage(file);
      case Enhance =>
        err := ShowDepixelScreen();
      case BackToMain =>
        ShowMainScreen();
      case CompareRequest =>
        ShowCompareScreen();
      case Save(path) =>
        written := SaveDepixelImage(path);
      case BackToEnhance =>
        err := ShowDepixelScreen();
    }
  }

  /** `__main__`: construct the application and show the Welcome screen. */
  method Launch(loadImage: string -> Option<Raster>, model: Model) returns (app: App)
    ensures fresh(app) && app.Valid()
    ensures app.State() == Session.Startup()
    ensures app.Env() == Session.Env(loadImage, model)
    ensures fresh(app.mainView) && fresh(app.depixelView) && fresh(app.originalView) && fresh(app.resultView)
  {
    app := new App(loadImage, model);
    app.ShowWelcomeScreen();
  }

  /**
   * `__main__` followed by the event loop: launch, then deliver the clicks `cs` in order
   * until they run out or an exception escapes a handler. The session reached is the one
   * `Session.Run` describes.
   */
  method Execute(loadImage: string -> Option<Raster>, model: Model, cs: seq<Click>)
    returns (app: App, err: Option<PipelineError>)
    ensures fresh(app) && app.Valid()
    ensures Session.Outcome(app.State(), err) == Session.Run(Session.Env(loadImage, model), cs)
  {
    app := Launch(loadImage, model);
    ghost var env := Session.Env(loadImage, model);
    err := None;
    var i := 0;
    while i < |cs| && err.None?
      invariant 0 <= i <= |cs|
      invariant fresh(app) && app.Valid() && app.Env() == env
      invariant fresh(app.mainView) && fresh(app.depixelView) && fresh(app.originalView) && fresh(app.resultView)
      invariant Session.Replay(Session.Outcome(app.State(), err), cs[i..], env) == Session.Run(env, cs)
    {
      var written;
      err, written := app.Press(cs[i]);
      i := i + 1;
    }
  }
}
