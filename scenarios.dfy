/**
 * Click sequences from startup, as the session functions determine them: what the
 * session shows after re-entering the Enhance screen, after a second upload, after a
 * cancelled upload, after an undecodable file, after a pipeline exception, on the
 * Compare screen before any result, and what Save writes before and after a result.
 */
module Scenarios {
  import opened Wrappers
  import opened Pipeline
  import opened Navigation
  import opened Session

  /** The steps of one `process_image` call that stored a result. */
  function Enhancement(file: string): seq<Event> {
    [WaitShown, ImageLoaded(file), Inferred, WaitClosed]
  }

  /** Welcome, then an upload: the Main screen shows the file, nothing has run. */
  lemma Uploaded(env: Env, file: string)
    requires file != ""
    ensures Run(env, [EnterApp, Upload(file)]) ==
              Outcome(State(Only(Main), Some(file), None, Some(file), None, None, []), None)
  {
    RunSnoc(env, [], EnterApp);
    assert [] + [EnterApp] == [EnterApp];
    RunSnoc(env, [EnterApp], Upload(file));
  }

  /** Upload, then Enhance with a file the pipeline turns into `r`: one run, result stored and shown. */
  lemma Enhanced(env: Env, file: string, r: Raster)
    requires file != "" && Produces(env, file, r)
    ensures Run(env, [EnterApp, Upload(file), Enhance]) ==
              Outcome(State(Only(Depixel), Some(file), Some(r), Some(file), Some(r), None, Enhancement(file)), None)
  {
    Uploaded(env, file);
    var s := State(Only(Main), Some(file), None, Some(file), None, None, []);
    RunSnoc(env, [EnterApp, Upload(file)], Enhance);
    assert [EnterApp, Upload(file)] + [Enhance] == [EnterApp, Upload(file), Enhance];
    var shown := s.(vis := Only(Depixel));
    assert ProcessImage(shown, env).state == shown.(result := Some(r), depixelShown := Some(r), trace := Enhancement(file));
  }

  /** Back to the Main screen after an enhancement keeps the result. */
  lemma EnhancedAndBack(env: Env, file: string, r: Raster)
    requires file != "" && Produces(env, file, r)
    ensures Run(env, [EnterApp, Upload(file), Enhance, BackToMain]) ==
              Outcome(State(Only(Main), Some(file), Some(r), Some(file), Some(r), None, Enhancement(file)), None)
  {
    Enhanced(env, file, r);
    RunSnoc(env, [EnterApp, Upload(file), Enhance], BackToMain);
    assert [EnterApp, Upload(file), Enhance] + [BackToMain] == [EnterApp, Upload(file), Enhance, BackToMain];
  }

  /** Entering the Enhance screen a second time displays the stored result; the pipeline ran once. */
  lemma ReentryRunsPipelineOnce(env: Env, file: string, r: Raster)
    requires file != "" && Produces(env, file, r)
    ensures var o := Run(env, [EnterApp, Upload(file), Enhance, BackToMain, Enhance]);
            && o.err.None? && o.state.vis == Only(Depixel)
            && o.state.result == Some(r) && o.state.depixelShown == Some(r)
            && o.state.trace == Enhancement(file)
  {
    EnhancedAndBack(env, file, r);
    var cs := [EnterApp, Upload(file), Enhance, BackToMain];
    RunSnoc(env, cs, Enhance);
    assert cs + [Enhance] == [EnterApp, Upload(file), Enhance, BackToMain, Enhance];
  }

  /** A second upload keeps the first file's result: Enhance shows it again without a new run. */
  lemma StaleResultAfterSecondUpload(env: Env, file1: string, file2: string, r: Raster)
    requires file1 != "" && file2 != "" && Produces(env, file1, r)
    ensures Run(env, [EnterApp, Upload(file1), Enhance, BackToMain, Upload(file2), Enhance]) ==
              Outcome(State(Only(Depixel), Some(file2), Some(r), Some(file2), Some(r), None, Enhancement(file1)), None)
  {
    EnhancedAndBack(env, file1, r);
    var cs := [EnterApp, Upload(file1), Enhance, BackToMain];
    RunSnoc(env, cs, Upload(file2));
    assert cs + [Upload(file2)] == [EnterApp, Upload(file1), Enhance, BackToMain, Upload(file2)];
    var cs' := cs + [Upload(file2)];
    RunSnoc(env, cs', Enhance);
    assert cs' + [Enhance] == [EnterApp, Upload(file1), Enhance, BackToMain, Upload(file2), Enhance];
  }

  /** The Compare screen then pairs the second file with the first file's result. */
  lemma StaleComparison(env: Env, file1: string, file2: string, r: Raster)
    requires file1 != "" && file2 != "" && Produces(env, file1, r)
    ensures var o := Run(env, [EnterApp, Upload(file1), Enhance, BackToMain, Upload(file2), Enhance, CompareRequest]);
            o.err.None? && o.state.vis == Only(Compare) && o.state.compareShown == Some((file2, r))
  {
    StaleResultAfterSecondUpload(env, file1, file2, r);
    var cs := [EnterApp, Upload(file1), Enhance, BackToMain, Upload(file2), Enhance];
    RunSnoc(env, cs, CompareRequest);
    assert cs + [CompareRequest] == [EnterApp, Upload(file1), Enhance, BackToMain, Upload(file2), Enhance, CompareRequest];
    CompareFromDepixelOnly();
  }

  /** A cancelled open-file dialog keeps the earlier path and the session as it was. */
  lemma CancelledUploadKeepsPath(env: Env, file: string)
    requires file != ""
    ensures Run(env, [EnterApp, Upload(file), Upload("")]) == Run(env, [EnterApp, Upload(file)])
    ensures Run(env, [EnterApp, Upload(file), Upload("")]).state.path == Some(file)
  {
    Uploaded(env, file);
    RunSnoc(env, [EnterApp, Upload(file)], Upload(""));
    assert [EnterApp, Upload(file)] + [Upload("")] == [EnterApp, Upload(file), Upload("")];
  }

  /** An upload of a file `load_image` cannot read, an Enhance attempt, and back to Main. */
  lemma UndecodableAndBack(env: Env, file: string)
    requires file != "" && env.loadImage(file).None?
    ensures Run(env, [EnterApp, Upload(file), Enhance, BackToMain]) ==
              Outcome(State(Only(Main), Some(file), None, Some(file), None, None,
                            [WaitShown, ImageLoaded(file), WaitClosed]), None)
  {
    Uploaded(env, file);
    var s := State(Only(Main), Some(file), None, Some(file), None, None, []);
    RunSnoc(env, [EnterApp, Upload(file)], Enhance);
    assert [EnterApp, Upload(file)] + [Enhance] == [EnterApp, Upload(file), Enhance];
    assert ProcessImage(s.(vis := Only(Depixel)), env).state ==
             s.(vis := Only(Depixel), trace := [WaitShown, ImageLoaded(file), WaitClosed]);
    RunSnoc(env, [EnterApp, Upload(file), Enhance], BackToMain);
    assert [EnterApp, Upload(file), Enhance] + [BackToMain] == [EnterApp, Upload(file), Enhance, BackToMain];
  }

  /**
   * When `load_image` yields nothing, no result is stored, the wait dialog is closed, and
   * the next entry into the Enhance screen runs `process_image` again.
   */
  lemma UndecodableFileRetried(env: Env, file: string)
    requires file != "" && env.loadImage(file).None?
    ensures var o := Run(env, [EnterApp, Upload(file), Enhance, BackToMain, Enhance]);
            && o.err.None? && o.state.result == None && o.state.depixelShown == None
            && o.state.trace == [WaitShown, ImageLoaded(file), WaitClosed, WaitShown, ImageLoaded(file), WaitClosed]
  {
    UndecodableAndBack(env, file);
    var once := [WaitShown, ImageLoaded(file), WaitClosed];
    var s := State(Only(Depixel), Some(file), None, Some(file), None, None, once);
    var cs := [EnterApp, Upload(file), Enhance, BackToMain];
    RunSnoc(env, cs, Enhance);
    assert cs + [Enhance] == [EnterApp, Upload(file), Enhance, BackToMain, Enhance];
    assert ProcessImage(s, env).state == s.(trace := once + once);
  }

  /**
   * When the pipeline raises, the exception ends the run: the wait dialog was shown and never
   * closed, no result is stored, and no later click is delivered.
   */
  lemma PipelineErrorEndsRun(env: Env, file: string, later: seq<Navigation.Click>)
    requires file != "" && env.loadImage(file).Some?
    requires RunDepixelation(env.model, env.loadImage(file).value).Err?
    ensures var o := Run(env, [EnterApp, Upload(file), Enhance]);
            && o.err == Some(RunDepixelation(env.model, env.loadImage(file).value).error)
            && o.state.result == None
            && o.state.trace == [WaitShown, ImageLoaded(file), Inferred]
    ensures Run(env, [EnterApp, Upload(file), Enhance] + later) == Run(env, [EnterApp, Upload(file), Enhance])
  {
    Uploaded(env, file);
    RunSnoc(env, [EnterApp, Upload(file)], Enhance);
    assert [EnterApp, Upload(file)] + [Enhance] == [EnterApp, Upload(file), Enhance];
    var o := Run(env, [EnterApp, Upload(file), Enhance]);
    ReplayAppend(Outcome(Startup(), None), [EnterApp, Upload(file), Enhance], later, env);
    ReplayStopped(o, later, env);
  }

  /** Enhance and Compare without an upload: nothing runs and Compare shows nothing. */
  lemma CompareWithoutResult(env: Env)
    ensures var o := Run(env, [EnterApp, Enhance, CompareRequest]);
            && o.err.None? && o.state.vis == Only(Compare)
            && o.state.compareShown == None && o.state.trace == []
  {
  }

  /** Save on the Enhance screen before any result writes nothing, whatever file is chosen. */
  lemma SaveBeforeResult(env: Env, target: string)
    ensures var o := Run(env, [EnterApp, Enhance]);
            o.state.vis == Only(Depixel) && Handle(o.state, Save(target), env).written == None
  {
  }

  /** Save after a result writes that result to the chosen file; a cancelled dialog writes nothing. */
  lemma SaveAfterResult(env: Env, file: string, r: Raster, target: string)
    requires file != "" && Produces(env, file, r)
    ensures var s := Run(env, [EnterApp, Upload(file), Enhance]).state;
            Handle(s, Save(target), env).written == (if target == "" then None else Some((target, r)))
  {
    Enhanced(env, file, r);
  }
}
