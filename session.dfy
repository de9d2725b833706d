/**
 * The session of the application as a value: window visibility, `current_image_path`,
 * `depixel_image`, what each window's scene shows, and the steps `process_image` has
 * taken. One function per operation of `App` and its windows gives the state after it;
 * the class in module Application is proved to follow these functions.
 */
module Session {
  import opened Wrappers
  import opened Pipeline
  import opened Navigation

  /** Python truthiness of a stored path: present and not the empty string. */
  predicate HasPath(p: Option<string>) {
    p.Some? && p.value != ""
  }

  /** Steps of `process_image`, in the order they happen. */
  datatype Event =
    | WaitShown                 // a WaitDialog is created and shown
    | ImageLoaded(path: string) // load_image is called on the path
    | Inferred                  // run_depixelation is called
    | WaitClosed                // the wait dialog is closed

  /** The collaborators the application cannot see: `load_image` and the network. */
  datatype Env = Env(loadImage: string -> Option<Raster>, model: Model)

  datatype State = State(
    vis: Visibility,
    path: Option<string>,                 // App.current_image_path
    result: Option<Raster>,               // App.depixel_image
    mainShown: Option<string>,            // the file MainWindow's scene shows
    depixelShown: Option<Raster>,         // the raster DepixelWindow's scene shows
    compareShown: Option<(string, Raster)>, // the pair CompareWindow's scenes show
    trace: seq<Event>)                    // process_image steps so far

  /** A state together with the exception that escaped, if any. */
  datatype Outcome = Outcome(state: State, err: Option<PipelineError>)

  /** A click's result: the state, an escaped exception, and what a Save wrote. */
  datatype Step = Step(state: State, err: Option<PipelineError>, written: Option<(string, Raster)>)

  /** After `App.__init__`: windows hidden, nothing loaded, nothing shown. */
  const Initial := State(AllHidden, None, None, None, None, None, [])

  /** The stored path is never the empty string (upload ignores a cancelled dialog). */
  predicate Consistent(s: State) {
    s.path.Some? ==> s.path.value != ""
  }

  /** `r` is what the pipeline makes of the image `load_image` reads from `p`. */
  predicate Produces(env: Env, p: string, r: Raster) {
    env.loadImage(p).Some? && RunDepixelation(env.model, env.loadImage(p).value) == Ok(r)
  }

  /** The stored result is the enhancement of some file that was loaded in this session. */
  ghost predicate ResultFromLoadedFile(s: State, env: Env) {
    s.result.Some? ==> exists p :: ImageLoaded(p) in s.trace && Produces(env, p, s.result.value)
  }

  // ------------------------------------------------------------ operations

  /** `show_welcome_screen`. */
  function EnterWelcome(s: State): (r: State)
    ensures r == s.(vis := Only(Welcome))
  {
    s.(vis := ShowWelcomeScreen(s.vis))
  }

  /** `show_main_screen`. */
  function EnterMain(s: State): (r: State)
    ensures r == s.(vis := Only(Main))
  {
    s.(vis := ShowMainScreen(s.vis))
  }

  /** `MainWindow.upload_image` given the dialog's answer ("" when cancelled). */
  function UploadImage(s: State, file: string): (r: State)
    ensures r.result == s.result && r.trace == s.trace && r.vis == s.vis
    ensures file == "" ==> r == s
    ensures file != "" ==> r == s.(path := Some(file), mainShown := Some(file))
  {
    if file == "" then s else s.(path := Some(file), mainShown := Some(file))
  }

  /**
   * `DepixelWindow.process_image`: show the wait dialog, load the image and, when there
   * is one, run the pipeline and store and display its output; close the dialog. An
   * exception from the pipeline returns at once: the dialog stays open, the result unset.
   */
  function ProcessImage(s: State, env: Env): Outcome
    requires s.path.Some?
  {
    var p := s.path.value;
    var loading := s.(trace := s.trace + [WaitShown, ImageLoaded(p)]);
    match env.loadImage(p)
    case None =>
      Outcome(loading.(trace := loading.trace + [WaitClosed]), None)
    case Some(img) =>
      var running := loading.(trace := loading.trace + [Inferred]);
      match RunDepixelation(env.model, img)
      case Err(e) => Outcome(running, Some(e))
      case Ok(out) =>
        Outcome(running.(result := Some(out), depixelShown := Some(out), trace := running.trace + [WaitClosed]), None)
  }

  /** Whether `process_image` reaches `display_image`: an image loads and the pipeline succeeds. */
  predicate ProcessDisplays(s: State, env: Env)
    requires s.path.Some?
  {
    && env.loadImage(s.path.value).Some?
    && RunDepixelation(env.model, env.loadImage(s.path.value).value).Ok?
  }

  /** `DepixelWindow.showEvent`: run `process_image` with a path and no result, else show the stored result. */
  function DepixelShowEvent(s: State, env: Env): (o: Outcome)
    ensures s.result.Some? ==> o == Outcome(s.(depixelShown := s.result), None)
    ensures !HasPath(s.path) && s.result.None? ==> o == Outcome(s, None)
    ensures HasPath(s.path) && s.result.None? ==> o == ProcessImage(s, env)
  {
    if HasPath(s.path) && s.result.None? then ProcessImage(s, env)
    else if s.result.Some? then Outcome(s.(depixelShown := s.result), None)
    else Outcome(s, None)
  }

  /** Whether the Enhance window's showEvent reaches `display_image`. */
  predicate DepixelShowDisplays(s: State, env: Env) {
    if HasPath(s.path) && s.result.None? then ProcessDisplays(s, env) else s.result.Some?
  }

  /** Whether `show_depixel_screen` reaches `display_image`: only through a showEvent. */
  predicate EnterDepixelDisplays(s: State, env: Env) {
    !s.vis.depixel && DepixelShowDisplays(s, env)
  }

  /** `show_depixel_screen`; `show()` on a hidden window delivers its showEvent. */
  function EnterDepixel(s: State, env: Env): (o: Outcome)
    ensures o.state.vis == Only(Depixel)
    ensures s.vis.depixel ==> o == Outcome(s.(vis := Only(Depixel)), None)
    ensures !s.vis.depixel ==> o == DepixelShowEvent(s.(vis := Only(Depixel)), env)
  {
    var shown := s.(vis := ShowDepixelScreen(s.vis));
    if s.vis.depixel then Outcome(shown, None) else DepixelShowEvent(shown, env)
  }

  /** `CompareWindow.showEvent`: both images are shown only when there is a path and a result. */
  function CompareShowEvent(s: State): (r: State)
    ensures HasPath(s.path) && s.result.Some? ==> r == s.(compareShown := Some((s.path.value, s.result.value)))
    ensures !(HasPath(s.path) && s.result.Some?) ==> r == s
  {
    if HasPath(s.path) && s.result.Some? then s.(compareShown := Some((s.path.value, s.result.value))) else s
  }

  /** Whether the Compare window's showEvent loads both images into its views. */
  predicate CompareShowDisplays(s: State) {
    HasPath(s.path) && s.result.Some?
  }

  /** Whether `show_compare_screen` loads both images: only through a showEvent. */
  predicate EnterCompareDisplays(s: State) {
    !s.vis.compare && CompareShowDisplays(s)
  }

  /** `show_compare_screen`: hides only the Depixel window, then shows Compare. */
  function EnterCompare(s: State): (r: State)
    ensures r.vis == ShowCompareScreen(s.vis)
    ensures r.path == s.path && r.result == s.result && r.trace == s.trace
    ensures r.mainShown == s.mainShown && r.depixelShown == s.depixelShown
    ensures s.vis.compare ==> r.compareShown == s.compareShown
    ensures !s.vis.compare ==> r == CompareShowEvent(s.(vis := ShowCompareScreen(s.vis)))
  {
    var shown := s.(vis := ShowCompareScreen(s.vis));
    if s.vis.compare then shown else CompareShowEvent(shown)
  }

  /** `save_depixel_image` given the save dialog's answer: the file and raster written, if any. */
  function SaveDepixelImage(s: State, target: string): (w: Option<(string, Raster)>)
    ensures w.Some? <==> s.result.Some? && target != ""
    ensures w.Some? ==> w.value == (target, s.result.value)
  {
    if s.result.Some? && target != "" then Some((target, s.result.value)) else None
  }

  /** A click on a wired button; buttons of hidden windows receive nothing. */
  function Handle(s: State, c: Navigation.Click, env: Env): Step {
    if !IsVisible(s.vis, Owner(c)) then Step(s, None, None)
    else match c
      case EnterApp => Step(EnterMain(s), None, None)
      case Upload(file) => Step(UploadImage(s, file), None, None)
      case Enhance => var o := EnterDepixel(s, env); Step(o.state, o.err, None)
      case BackToMain => Step(EnterMain(s), None, None)
      case CompareRequest => Step(EnterCompare(s), None, None)
      case Save(target) => Step(s, None, SaveDepixelImage(s, target))
      case BackToEnhance => var o := EnterDepixel(s, env); Step(o.state, o.err, None)
  }

  /** Whether a click refits the Main view: a visible Upload button and a chosen file. */
  predicate RefitsMain(s: State, c: Navigation.Click) {
    IsVisible(s.vis, Owner(c)) && c.Upload? && c.file != ""
  }

  /** Whether a click refits the Enhance view: a visible Enhance entry that displays a result. */
  predicate RefitsDepixel(s: State, c: Navigation.Click, env: Env) {
    IsVisible(s.vis, Owner(c)) && (c.Enhance? || c.BackToEnhance?) && EnterDepixelDisplays(s, env)
  }

  /** Whether a click refits the two Compare views: a visible Compare button that loads both images. */
  predicate RefitsCompare(s: State, c: Navigation.Click) {
    IsVisible(s.vis, Owner(c)) && c.CompareRequest? && EnterCompareDisplays(s)
  }

  /** After `App(sys.argv)` and `show_welcome_screen()`. */
  function Startup(): (s: State)
    ensures s == Initial.(vis := Only(Welcome))
  {
    EnterWelcome(Initial)
  }

  /** Deliver one click, unless an exception has already escaped and ended the event loop. */
  function Advance(o: Outcome, c: Navigation.Click, env: Env): Outcome {
    if o.err.Some? then o
    else
      var step := Handle(o.state, c, env);
      Outcome(step.state, step.err)
  }

  /** Deliver the clicks `cs` in order; an exception escaping a handler ends the run. */
  function Replay(o: Outcome, cs: seq<Navigation.Click>, env: Env): Outcome
    decreases |cs|
  {
    if cs == [] || o.err.Some? then o
    else Replay(Advance(o, cs[0], env), cs[1..], env)
  }

  /** The session after the clicks `cs` from startup. */
  function Run(env: Env, cs: seq<Navigation.Click>): Outcome {
    Replay(Outcome(Startup(), None), cs, env)
  }

  // ------------------------------------------------------------ properties

  /** A click changes visibility exactly as the button wiring of the navigation says. */
  lemma ClickVisibility(s: State, c: Navigation.Click, env: Env)
    ensures Handle(s, c, env).state.vis == Press(s.vis, c)
  {
  }

  /**
   * The button wiring: a button of a hidden window does nothing; only Save writes, and it
   * changes no state; only the two buttons that enter the Enhance screen can raise or run
   * `process_image`.
   */
  lemma HandleEffects(s: State, c: Navigation.Click, env: Env)
    ensures !IsVisible(s.vis, Owner(c)) ==> Handle(s, c, env) == Step(s, None, None)
    ensures Handle(s, c, env).written.Some? ==> c.Save? && Handle(s, c, env).state == s
    ensures Handle(s, c, env).err.Some? ==> c == Enhance || c == BackToEnhance
    ensures Handle(s, c, env).state.trace != s.trace ==> c == Enhance || c == BackToEnhance
  {
  }

  /** Once stored, a result is never replaced or cleared by any click, an upload included. */
  lemma ResultNeverReplaced(s: State, c: Navigation.Click, env: Env)
    requires s.result.Some?
    ensures Handle(s, c, env).state.result == s.result
  {
  }

  /** The invariant of every reachable session. */
  ghost predicate Reachable(s: State, env: Env) {
    ExactlyOne(s.vis) && Consistent(s) && ResultFromLoadedFile(s, env)
  }

  /**
   * What process_image keeps and changes: visibility, the path and the other scenes stay;
   * the trace grows by the dialog, the load and more; a new result is the pipeline's output
   * for the current path, displayed at once; without an image or on an exception the result
   * stays as it was.
   */
  lemma ProcessImageEffect(s: State, env: Env)
    requires s.path.Some?
    ensures var o := ProcessImage(s, env);
            && o.state.vis == s.vis && o.state.path == s.path
            && o.state.mainShown == s.mainShown && o.state.compareShown == s.compareShown
            && |o.state.trace| >= |s.trace| + 3 && o.state.trace[..|s.trace|] == s.trace
            && o.state.trace[|s.trace|] == WaitShown && o.state.trace[|s.trace| + 1] == ImageLoaded(s.path.value)
            && (o.err.None? <==> o.state.trace[|o.state.trace| - 1] == WaitClosed)
    ensures var o := ProcessImage(s, env);
            o.state.result != s.result ==>
              o.err.None? && o.state.result.Some? && o.state.depixelShown == o.state.result &&
              Produces(env, s.path.value, o.state.result.value)
    ensures env.loadImage(s.path.value).None? ==> ProcessImage(s, env).err.None? && ProcessImage(s, env).state.result == s.result
    ensures ProcessImage(s, env).err.Some? ==>
              ProcessImage(s, env).state.result == s.result && ProcessImage(s, env).state.depixelShown == s.depixelShown
    ensures var p := s.path.value;
            env.loadImage(p).Some? && RunDepixelation(env.model, env.loadImage(p).value).Ok? ==>
              var out := RunDepixelation(env.model, env.loadImage(p).value).value;
              && ProcessImage(s, env).err.None?
              && ProcessImage(s, env).state.result == Some(out)
              && ProcessImage(s, env).state.depixelShown == Some(out)
  {
  }

  /**
   * The first entry into a hidden Enhance window with a path and no result runs the
   * pipeline once: a readable file whose run succeeds is stored and displayed; an
   * unreadable file stores nothing and the dialog is closed.
   */
  lemma FirstEntryRunsPipeline(s: State, env: Env)
    requires !s.vis.depixel && HasPath(s.path) && s.result.None?
    ensures var p := s.path.value;
            env.loadImage(p).Some? && RunDepixelation(env.model, env.loadImage(p).value).Ok? ==>
              var out := RunDepixelation(env.model, env.loadImage(p).value).value;
              EnterDepixel(s, env) ==
                Outcome(s.(vis := Only(Depixel), result := Some(out), depixelShown := Some(out),
                           trace := s.trace + [WaitShown, ImageLoaded(p), Inferred, WaitClosed]), None)
    ensures var p := s.path.value;
            env.loadImage(p).None? ==>
              EnterDepixel(s, env) ==
                Outcome(s.(vis := Only(Depixel), trace := s.trace + [WaitShown, ImageLoaded(p), WaitClosed]), None)
  {
  }

  /** The stored result keeps its provenance across a process_image call. */
  lemma ProcessKeepsProvenance(s: State, env: Env)
    requires s.path.Some? && ResultFromLoadedFile(s, env)
    ensures ResultFromLoadedFile(ProcessImage(s, env).state, env)
  {
  }

  /** Showing the Depixel window keeps the invariant's session part. */
  lemma EnterDepixelKeepsProvenance(s: State, env: Env)
    requires Consistent(s) && ResultFromLoadedFile(s, env)
    ensures Consistent(EnterDepixel(s, env).state) && ResultFromLoadedFile(EnterDepixel(s, env).state, env)
  {
  }

  /** Every click keeps the invariant. */
  lemma ClickKeepsReachable(s: State, c: Navigation.Click, env: Env)
    requires Reachable(s, env)
    ensures Reachable(Handle(s, c, env).state, env)
  {
  }

  /** Replaying clicks from an invariant state stays in invariant states. */
  lemma {:induction false} ReplayKeepsReachable(o: Outcome, cs: seq<Navigation.Click>, env: Env)
    requires Reachable(o.state, env)
    ensures Reachable(Replay(o, cs, env).state, env)
    decreases |cs|
  {
    if cs != [] && o.err.None? {
      ClickKeepsReachable(o.state, cs[0], env);
      ReplayKeepsReachable(Advance(o, cs[0], env), cs[1..], env);
    }
  }

  /** Replaying a concatenation replays the first part, then the second. */
  lemma {:induction false} ReplayAppend(o: Outcome, xs: seq<Navigation.Click>, ys: seq<Navigation.Click>, env: Env)
    ensures Replay(o, xs + ys, env) == Replay(Replay(o, xs, env), ys, env)
    decreases |xs|
  {
    if xs == [] {
      assert xs + ys == ys;
    } else if o.err.Some? {
      ReplayStopped(o, ys, env);
    } else {
      assert (xs + ys)[0] == xs[0];
      assert (xs + ys)[1..] == xs[1..] + ys;
      ReplayAppend(Advance(o, xs[0], env), xs[1..], ys, env);
    }
  }

  /** Once an exception has escaped, further clicks change nothing. */
  lemma ReplayStopped(o: Outcome, cs: seq<Navigation.Click>, env: Env)
    requires o.err.Some?
    ensures Replay(o, cs, env) == o
  {
  }

  /** One more click after a run advances its outcome by that click. */
  lemma RunSnoc(env: Env, cs: seq<Navigation.Click>, c: Navigation.Click)
    ensures Run(env, cs + [c]) == Advance(Run(env, cs), c, env)
  {
    ReplayAppend(Outcome(Startup(), None), cs, [c], env);
  }

  /**
   * Every click sequence from startup leaves exactly one window visible, a stored path that
   * is not empty, and a result (if any) that enhances a file loaded earlier in the session.
   */
  lemma RunReachable(env: Env, cs: seq<Navigation.Click>)
    ensures Reachable(Run(env, cs).state, env)
    ensures ExactlyOne(Run(env, cs).state.vis)
  {
    ReplayKeepsReachable(Outcome(Startup(), None), cs, env);
  }

  /** Each click moves along a screen edge, or stays. */
  lemma ClickFollowsScreenEdges(s: State, c: Navigation.Click, env: Env)
    requires ExactlyOne(s.vis)
    ensures ExactlyOne(Handle(s, c, env).state.vis)
    ensures var w, w' := Current(s.vis), Current(Handle(s, c, env).state.vis);
            w' == w || ScreenEdge(w, w')
  {
  }

  /** Entering the Enhance screen with a stored result runs nothing and displays that result. */
  lemma ReentryDisplaysStored(s: State, env: Env)
    requires s.result.Some?
    ensures EnterDepixel(s, env).state.trace == s.trace
    ensures EnterDepixel(s, env).state.result == s.result
    ensures EnterDepixel(s, env).err.None?
    ensures !s.vis.depixel ==> EnterDepixel(s, env).state.depixelShown == s.result
  {
  }

  /** On normal return from process_image the dialog shown before loading has been closed. */
  lemma DialogClosedOnNormalReturn(s: State, env: Env)
    requires s.path.Some?
    requires ProcessImage(s, env).err.None?
    ensures var t := ProcessImage(s, env).state.trace;
            t == s.trace + [WaitShown, ImageLoaded(s.path.value)]
                 + (if env.loadImage(s.path.value).Some? then [Inferred] else []) + [WaitClosed]
  {
  }

  /** When the pipeline raises, process_image leaves the dialog open and stores nothing. */
  lemma DialogLeftOpenOnError(s: State, env: Env)
    requires s.path.Some?
    requires ProcessImage(s, env).err.Some?
    ensures ProcessImage(s, env).state.trace == s.trace + [WaitShown, ImageLoaded(s.path.value), Inferred]
    ensures ProcessImage(s, env).state.result == s.result
    ensures env.loadImage(s.path.value).Some?
    ensures ProcessImage(s, env).err == Some(RunDepixelation(env.model, env.loadImage(s.path.value).value).error)
  {
  }
}
