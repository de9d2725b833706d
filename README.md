# Depixel desktop application: navigation, session and pipeline model

The application is a four-screen PyQt5 desktop program. The Welcome screen leads to the Main
screen. There the user uploads a JPEG or PNG file and chooses Enhance. The Enhance (depixel)
screen runs a super-resolution network on the image once, stores the result, shows it and can
save it. The Compare screen shows the original and the result side by side. Every screen's
picture can be zoomed with Ctrl+wheel and panned with the plain wheel.

This Dafny project models the logic of `main.py` in five modules. `wrappers.dfy` holds the
`Option`/`Result` types; the other four are:

- `navigation.dfy` (`Navigation`): the four `isVisible()` flags of the windows. It covers the
  `hide()`/`show()` sequences of `App.show_*_screen` and the buttons wired to them. A click on a
  button of a hidden window has no effect.
- `session.dfy` (`Session`): the whole session as a value. It holds the flags,
  `current_image_path`, `depixel_image`, what each window's scene shows, and a trace of the steps
  `process_image` takes (wait dialog shown, image loaded, network run, dialog closed). Each
  operation is a function from the old state to the new one. The collaborators `load_image` and
  the network are an arbitrary `Env`. `Run` replays a click sequence from startup; an exception
  escaping a handler ends the run.
- `app.dfy` (`Application`): the imperative form. Class `App` has the same fields, updated in
  place by methods named after the source's. Each method is proved to reach exactly the state
  the matching `Session` function gives. `Execute` is the launch plus the event loop; it is proved
  to reach `Session.Run`'s outcome.
- `viewport.dfy` (`Viewport`): a `QGraphicsView` reduced to its accumulated scale and translation.
  It covers the three `wheelEvent` handlers: zoom on Control alone by an uninterpreted positive
  factor, otherwise a pan by exactly (-dx/5, -dy/5).
- `pipeline.dfy` (`Pipeline`): `run_depixelation` over nested sequences indexed `[h][w][c]`, with
  exact reals.

`scenarios.dfy` (`Scenarios`) states concrete click sequences and what they lead to.

Three behaviours of the code that a reader might not expect; the model follows the code:

- The wait dialog is not released when the pipeline raises: `process_image` has no `try`/`finally`
  (`Session.DialogLeftOpenOnError`).
- `show_compare_screen` hides only the Enhance window, so "exactly one window visible" holds only
  along the wired, reachable transitions (`Navigation.CompareNotAlwaysExclusive`,
  `Session.RunReachable`).
- An upload never invalidates the stored result, so a second file is paired with the first
  file's result (`Scenarios.StaleComparison`).

## Model

| member | source | states |
|---|---|---|
| Pipeline.Normalize | main.py:121-124 | same extents; every sample lies in [0, 1] and times 255 gives back the 8-bit input sample |
| Pipeline.HwcToChw | main.py:127 | `permute(2, 0, 1)`: extents (c, h, w) and `t[c][h][w] == x[h][w][c]` for every index |
| Pipeline.ChwToHwc | main.py:141 | `permute(1, 2, 0)`: extents (h, w, c) and `x[h][w][c] == t[c][h][w]` for every index |
| Pipeline.Unsqueeze | main.py:127-128 | `unsqueeze(0)`: a batch of exactly one tensor, the argument |
| Pipeline.Squeeze | main.py:141 | succeeds exactly on a batch of one, and then inverts `Unsqueeze`; any other batch size is a shape error carrying that size |
| Pipeline.Clamp01 | main.py:141 | `clamp(0, 1)`: the result lies in [0, 1]; in-range values are kept, values below become 0 and above become 1 |
| Pipeline.ClampTensor | main.py:141 | same extents, every sample in [0, 1], each sample clamped |
| Pipeline.ToByte | main.py:144 | `(v * 255).astype(uint8)` on a clamped sample: the byte `s` with `s <= 255 v < s + 1` |
| Pipeline.Denormalize | main.py:144 | same extents; every output byte is the truncation of 255 times its sample |
| Pipeline.ModelInput | main.py:121-128 | the network's input is a batch of one, channel-first, whose samples times 255 are the input raster's samples |
| Pipeline.Encode | main.py:141-147 | succeeds exactly on a batch of one; then the raster is channel-last and every byte is `ToByte(Clamp01(_))` of the matching output sample |
| Pipeline.RunDepixelation | main.py:119-148 | fails exactly when the network raises or returns other than one batch element, with the matching error |
| Pipeline.HwcRoundTrip | main.py:127 | `permute(1, 2, 0)` after `permute(2, 0, 1)` is the identity |
| Pipeline.ChwRoundTrip | main.py:141 | `permute(2, 0, 1)` after `permute(1, 2, 0)` is the identity |
| Pipeline.SampleRoundTrip | main.py:124 | normalising an 8-bit sample, clamping and quantising gives the sample back |
| Pipeline.OutputRange | main.py:141-144 | a successful run had a one-element network output `o`; the raster has extents (h, w, c) of `o`, and every 8-bit sample is `ToByte(Clamp01(_))` of `o` at the transposed index, i.e. the truncation of 255 times the clamped sample |
| Pipeline.IdentityRoundTrip | main.py:119-148 | with an identity stand-in for the network the pipeline returns the input raster unchanged |
| Pipeline.OutputShape | main.py:141-147 | a one-element network output of extents (c, h, w) yields a raster of extents (h, w, c) |
| Navigation.Hide | main.py:280-282 | `hide()` clears one flag and keeps the other three |
| Navigation.Show | main.py:283 | `show()` sets one flag and keeps the other three |
| Navigation.ShowWelcomeScreen | main.py:279-283 | from any visibility, only Welcome is visible afterwards |
| Navigation.ShowMainScreen | main.py:285-289 | from any visibility, only Main is visible afterwards |
| Navigation.ShowDepixelScreen | main.py:291-295 | from any visibility, only the Enhance window is visible afterwards |
| Navigation.ShowCompareScreen | main.py:297-299 | Compare is visible and Enhance hidden; Welcome and Main keep their flags |
| Navigation.CompareFromDepixelOnly | main.py:297-299 | from "only Enhance visible", exactly Compare is visible |
| Navigation.CompareExclusiveIff | main.py:297-299 | afterwards exactly one window is visible if and only if neither Welcome nor Main was visible |
| Navigation.CompareNotAlwaysExclusive | main.py:297-299 | a state with one visible window exists from which Compare leaves two visible |
| Navigation.PressKeepsExactlyOne | main.py:90-92 | a wired click from a one-window state leaves one window visible, the same or one a screen edge leads to |
| Navigation.PressWiring | main.py:17-25 | `Press`: a hidden window's button changes nothing; from a one-window state a visible button leaves exactly its target window (`Target`, the window each button is meant to lead to) visible |
| Navigation.EveryScreenEdgeWired | main.py:17-25 | each of the five screen edges (Welcome to Main, Main to Enhance, Enhance to Main, Enhance to Compare, Compare to Enhance) is taken by a button of the window being left |
| Viewport.Notches | main.py:56 | the notch count times 120 is the vertical angle delta |
| Viewport.PanIsExact | main.py:50-69 | `WheelEffect` without Control alone passes exactly (-dx/5, -dy/5) to `translate` and keeps the scale |
| Viewport.PanIndependentOfScale | main.py:183-185 | the offsets `WheelEffect` passes to `translate` are the same whatever the view's current transform |
| Viewport.ZoomIsExact | main.py:168-187 | `WheelEffect` with Control alone multiplies the scale by `pow(angleY/120)` and keeps the translation |
| Viewport.ScaleStaysPositive | main.py:173-179 | with a positive zoom factor the scale stays positive |
| Viewport.View.constructor | main.py:26-29 | a new view has the identity transform |
| Viewport.View.Scale | main.py:61 | `scale(f, f)` multiplies the scale and keeps the translation |
| Viewport.View.Translate | main.py:67 | `translate(dx, dy)` adds to the translation and keeps the scale |
| Viewport.View.FitInView | main.py:44-45 | `fitInView` leaves some transform with a positive scale |
| Viewport.View.HandleWheel | main.py:50-69 | the new transform is `WheelEffect` of the old one |
| Session.EnterWelcome | main.py:279-283 | only Welcome visible; the session and scenes are unchanged |
| Session.EnterMain | main.py:285-289 | only Main visible; the session and scenes are unchanged |
| Session.UploadImage | main.py:31-42 | a cancelled dialog changes nothing; a chosen file becomes the path and the Main scene and nothing else changes (visibility, result, the other scenes and the trace are kept) |
| Session.DepixelShowEvent | main.py:94-99 | with a stored result, displays it and nothing else; with a path and no result, it is exactly `ProcessImage`; with no path and no result, nothing happens |
| Session.EnterDepixel | main.py:291-295 | only the Enhance window visible afterwards; if it was hidden, the outcome is the showEvent run on the state with only Enhance visible; if it was already visible, no showEvent runs |
| Session.CompareShowEvent | main.py:210-212 | both images are shown exactly when there is a path and a result; otherwise nothing changes |
| Session.EnterCompare | main.py:297-299 | the visibility follows `show_compare_screen`; path, result, trace and the Main and Enhance scenes are unchanged; if Compare was hidden the outcome is its showEvent (both images only with a path and a result), and if it was visible its scene is kept |
| Session.SaveDepixelImage | main.py:192-197 | something is written exactly when there is a result and the dialog was not cancelled, and then it is that result under the chosen name |
| Session.Startup | main.py:301-303 | after construction and `show_welcome_screen` only Welcome is visible and the session is empty |
| Session.ProcessImageEffect | main.py:101-117 | states `ProcessImage`: the dialog is shown before loading; on normal return it is closed; when an image loads and the pipeline succeeds, no error escapes and its output becomes the result and the Enhance scene; with no image, or on an exception, the result is unchanged; visibility, path and the other scenes are kept |
| Session.FirstEntryRunsPipeline | main.py:94-117 | entering a hidden Enhance window with a path and no result gives exactly: the pipeline output stored and displayed with a closed dialog, or, when nothing loads, only the trace |
| Session.DialogClosedOnNormalReturn | main.py:102-117 | on normal return the trace gained exactly: shown, loaded, inferred only if an image was loaded, closed |
| Session.DialogLeftOpenOnError | main.py:111-117 | when the pipeline raises, the trace gained shown, loaded, inferred and no close; the result is unchanged; the error is the pipeline's |
| Session.ReentryDisplaysStored | main.py:96-99 | entering Enhance with a stored result runs nothing, keeps the result, raises nothing and displays it |
| Session.ClickVisibility | main.py:90-92 | `Handle`: a click changes visibility exactly as `Navigation.Press` says |
| Session.HandleEffects | main.py:17-25 | `Handle`: a hidden button does nothing; only Save writes, and then the state is unchanged; only Enhance and Back-to-Enhance can raise or extend the trace |
| Session.ResultNeverReplaced | main.py:96-114 | once a result is stored, no click replaces or clears it, an upload included |
| Session.ProcessKeepsProvenance | main.py:111-114 | after `process_image` the result, if any, is still the pipeline output of a file loaded in the session |
| Session.EnterDepixelKeepsProvenance | main.py:291-299 | entering Enhance keeps a non-empty path and the provenance of the result |
| Session.ClickKeepsReachable | main.py:17-25 | every click keeps one visible window, a non-empty path and the provenance of the result |
| Session.ReplayStopped | main.py:304 | `Replay`: once an error has escaped, further clicks change nothing |
| Session.ReplayAppend | main.py:302-304 | `Replay` of a concatenation is the replay of the second part from the outcome of the first |
| Session.RunSnoc | main.py:302-304 | `Run` of one more click is `Advance` of that click from the run so far |
| Session.ReplayKeepsReachable | main.py:302-304 | any click sequence from an invariant state keeps the invariant |
| Session.RunReachable | main.py:301-304 | after any click sequence from startup exactly one window is visible, and any result is the pipeline output of a file loaded earlier |
| Session.ClickFollowsScreenEdges | main.py:17-25 | a click leaves the current screen or moves along a screen edge |
| Application.App.constructor | main.py:269-277 | four hidden windows, no path, no result, nothing shown, four distinct fresh views |
| Application.App.ShowWelcomeScreen | main.py:279-283 | the new state is `Session.EnterWelcome` of the old one |
| Application.App.ShowMainScreen | main.py:285-289 | the new state is `Session.EnterMain` of the old one |
| Application.App.ShowDepixelScreen | main.py:291-295 | the new state and escaped error are `Session.EnterDepixel` of the old state; unless a showEvent displays a result, no view's transform changes |
| Application.App.ShowCompareScreen | main.py:297-299 | the new state is `Session.EnterCompare` of the old one; unless Compare was hidden and there are a path and a result, no view's transform changes |
| Application.App.UploadImage | main.py:31-42 | the new state is `Session.UploadImage`; a cancelled dialog leaves every view's transform untouched |
| Application.App.MainWheelEvent | main.py:50-69 | the event is accepted and the Main view's transform is `WheelEffect` of the old one |
| Application.App.DepixelShowEvent | main.py:94-99 | the new state and error are `Session.DepixelShowEvent` of the old state; unless a result is displayed, no view's transform changes |
| Application.App.ProcessImage | main.py:101-117 | the new state and error are `Session.ProcessImage` of the old state; with no image or on a pipeline error no view's transform changes |
| Application.App.DisplayImage | main.py:150-166 | only the Enhance scene changes, to the given raster |
| Application.App.SaveDepixelImage | main.py:192-197 | writes exactly when there is a result and a non-empty name, and then that result under that name |
| Application.App.DepixelWheelEvent | main.py:168-187 | the event is accepted and the Enhance view's transform is `WheelEffect` of the old one |
| Application.App.CompareShowEvent | main.py:210-235 | the new state is `Session.CompareShowEvent` of the old one; without a path and a result no view's transform changes |
| Application.App.CompareWheelEvent | main.py:240-267 | the left view is handled when under the cursor, else the right one; the other view is untouched; with neither, nothing changes and the event is not accepted |
| Application.App.Press | main.py:90-92 | the new state, error and written file are `Session.Handle` of the old state and the click; only a visible Upload with a chosen file refits the Main view, only an Enhance entry that displays a result the Enhance view, and only a Compare entry that loads both images the two Compare views |
| Application.Launch | main.py:301-303 | a fresh valid application in `Session.Startup` |
| Application.Execute | main.py:301-304 | launching and delivering the clicks reaches `Session.Run` of the clicks |
| Scenarios.Uploaded | main.py:31-42 | Welcome, then an upload: the Main screen shows the file and nothing has run |
| Scenarios.Enhanced | main.py:94-117 | Enhance on a readable file stores and shows the pipeline output after exactly one run |
| Scenarios.EnhancedAndBack | main.py:285-289 | going back to the Main screen keeps the stored result |
| Scenarios.ReentryRunsPipelineOnce | main.py:96-99 | entering Enhance again shows the stored result and the pipeline has run once |
| Scenarios.StaleResultAfterSecondUpload | main.py:34-42 | after a second upload the first file's result is shown again without a new run, while the path names the second file |
| Scenarios.StaleComparison | main.py:210-212 | the Compare screen then pairs the second file with the first file's result |
| Scenarios.CancelledUploadKeepsPath | main.py:34 | a cancelled upload leaves the session exactly as it was |
| Scenarios.UndecodableAndBack | main.py:111-117 | an unreadable file stores nothing and closes the dialog |
| Scenarios.UndecodableFileRetried | main.py:94-117 | with an unreadable file, each Enhance entry runs `process_image` again |
| Scenarios.PipelineErrorEndsRun | main.py:111-117 | a raising pipeline leaves the dialog open and no result, and ends the run: later clicks change nothing |
| Scenarios.CompareWithoutResult | main.py:210-212 | Enhance and Compare without an upload: only Compare visible, nothing shown, nothing run |
| Scenarios.SaveBeforeResult | main.py:192-193 | Save before any result writes nothing |
| Scenarios.SaveAfterResult | main.py:192-197 | Save after a result writes that result to the chosen file, or nothing when cancelled |

## Left out

- Qt widgets, `.ui` loading, scene and pixmap construction and the PNG buffer used to hand images
  to a scene: the scenes are reduced to what they show (a file name or a raster).
- `fitInView` and transformation anchors: `View.FitInView` leaves an unspecified transform with a
  positive scale. A view keeps only its accumulated scale and translation, so the order in which a
  `QTransform` composes the two is not modelled.
- `pow(1.1, delta)`: the zoom factor is a parameter, required positive only.
- The underlying Qt accept flag: `accepted` means that the handler calls `accept()`. Qt's default
  flag on the one path that does not call it is not modelled.
- The network itself: `RRDBNet` construction, `torch.load`, `load_state_dict`, `eval`, device moves
  and `no_grad` are left out. The network is an arbitrary `Batch -> Option<Batch>` function, and
  `None` stands for a call that raises.
- `load_image` is an arbitrary function from a path to an optional raster; its internals are not
  part of this model. An exception raised by `load_image` itself is not modelled.
- File dialogs: each becomes the string it returns, empty when cancelled. Writing to disk is
  modelled as the returned pair of file name and raster (`written`).
- float32 arithmetic: samples are exact reals, so the identity-model round trip is exact rather
  than within one unit.
- `torch.squeeze()` removes every size-1 dimension; the model accepts only an output batch of one
  and gives a shape error otherwise. A 2-D (grayscale) input and `Image.fromarray`'s channel-count
  checks are not modelled: rasters are always `[h][w][c]`.
- `processEvents` and the modality of the wait dialog: the dialog is recorded in the trace only.
- What happens after an exception escapes a Qt handler depends on PyQt's exception hook; the model
  ends the run there (`Session.Replay`).
- Viewport.PanIsExact, Viewport.PanIndependentOfScale: these state the offsets passed to
  `translate()`; `QTransform.translate` scales them by the current scale, so the shift on screen
  depends on the zoom, and that composition is not modelled.
