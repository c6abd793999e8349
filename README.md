# First-breaks picking desktop: readiness state machine and image-export checks

A Dafny model of two pieces of decision logic in the first-breaks picking desktop tool. The tool is a Qt application. The operator loads a neural-network model, opens a seismic (SGY) file and runs first-break picking on it.

- `main_gui.dfy`, module `MainGui`, covers `first_breaks/desktop/main_gui.py`. It holds:
  - the weights-file classifier `FileState.get_file_state`;
  - the two-flag gate `ReadyToProcess` with `is_ready`;
  - every handler of `MainWindow` that changes the flags, the toolbar actions' enabled state, the selected file, the loaded network, the status line or the job list.

  Each handler exists twice:
  - as a pure transition over a `WindowState` snapshot (`LoadNnStep`, `CalcFbStep`, ...);
  - as a method of the `MainWindow` class. The method updates the class's fields step by step, and its postcondition says it ends in exactly the state the transition gives.

  `Step` and `Run` fold the transitions over any sequence of events. An event is a toolbar action or a signal of a submitted job. A toolbar action only fires while it is enabled. A job's signal only arrives once a job of that kind was submitted. The invariant `Inv` holds of every reachable window.
- `graph.dfy`, module `Graph`, covers `first_breaks/desktop/graph.py`. It holds:
  - `GraphExporter.avoid_memory_bomb` with its two constants;
  - the checks, the width formula, the choice of picks and the processing-region decision of `GraphExporter.export`, up to where drawing starts;
  - the source dispatch of `export_image`.

  Every raised exception is an `Error` value. `Error.Message` renders the same text as the source's f-strings.
- `common.dfy`, module `Common`, holds `Option`, `Result` and `Outcome`.

The readiness rule is kept as the source writes it: `is_ready` is true when the two flags are *equal*, not when both are set. So the gate is "ready" in a freshly built window, where neither flag is set (`InitialGateReadyButPickingDisabled`). This does no harm, for two reasons:
- the picking action starts disabled;
- `unlock_pickng_if_ready` is only called right after one flag has been set, and from then on equality and conjunction agree (`ReadyAfterOneFlagIsConjunction`, `UnlockAfterOneFlagNeedsBoth`).

`result_fb` re-enables open-SGY and picking only at its end, and two things can raise before that. The timing printout divides by `num_batches`. A successful result is drawn with `plot_picks`, which as written always raises in this window. The model follows the code: such a run leaves open-SGY disabled, and `finish_fb` only re-enables picking (`OpeningStaysDisabledWhenPlotRaises`). The intended design, re-enabling both actions after every result, is not what the code does.

The model also proves a race in the handlers. `load_nn` sets `model_loaded` before the InitNet job hands over the network. So a user who opens an SGY file and then loads a valid model can start picking at once, and the picking job is then submitted with no network (`PickingCanBeSubmittedBeforePickerArrives`).

Foreign calls become parameters:
- `calc_hash`, the set of regular files and `CKPT_HASH` are the parameter `Env`;
- the file dialogs' answers are a string, empty when the dialog was cancelled;
- the outcome of `show_sgy` is `ShowOutcome`;
- the network a finished InitNet job delivers is a `Picker`;
- the SGY constructor used by `export_image` is the function `openSgy`.

first_breaks/const.py, first_breaks/desktop/threads.py, first_breaks/picking/task.py and first_breaks/sgy/reader.py are not part of this model.

## Model

| member | source | states |
|---|---|---|
| `MainGui.GetFileState` | first_breaks/desktop/main_gui.py:29-34 | A path that is not a regular file is `FileNotExists`. An existing file is `ValidFile` exactly when its hash equals the expected one, and `FileChanged` otherwise. |
| `MainGui.MissingFileIgnoresExpectedHash` | first_breaks/desktop/main_gui.py:31-32 | A missing file is classified `FileNotExists` whatever hash is expected. |
| `MainGui.ValidForExactlyOneHash` | first_breaks/desktop/main_gui.py:33-34 | An existing file is valid for exactly one expected hash. Any other hash classifies it `FileChanged`. |
| `MainGui.Ready` | first_breaks/desktop/main_gui.py:41-42 | Both flags set is ready. Once a flag is set, ready requires both. Neither flag set is also ready. |
| `MainGui.ReadyToProcess.IsReady` | first_breaks/desktop/main_gui.py:41-42 | On the object's current flags: both set is ready, and once a flag is set, ready requires both. |
| `MainGui.ReadyTruthTable` | first_breaks/desktop/main_gui.py:41-42 | `is_ready` holds when both flags are false and when both are true. It fails when exactly one flag is set. |
| `MainGui.ReadyAfterOneFlagIsConjunction` | first_breaks/desktop/main_gui.py:41-42 | Once one flag is set, the equality rule is the same as requiring both flags. |
| `MainGui.ReadyToProcess.constructor` | first_breaks/desktop/main_gui.py:37-42 | Both flags start false, and the literal gate is then already ready. |
| `MainGui.InitialWindow` | first_breaks/desktop/main_gui.py:74-137 | The initial window: load-model and open-SGY are enabled, picking is disabled, both flags are false, and `picker`, `fn` and `picks` are None. |
| `MainGui.InitialGateReadyButPickingDisabled` | first_breaks/desktop/main_gui.py:37-42 | In the initial window the gate reports ready, yet picking is disabled. |
| `MainGui.UnlockOnlyEnables` | first_breaks/desktop/main_gui.py:209-212 | The unlock never disables picking. It enables picking exactly when the gate is ready, and then changes only the status line. |
| `MainGui.UnlockAfterOneFlagNeedsBoth` | first_breaks/desktop/main_gui.py:209-212 | When called with at least one flag set, the unlock turns picking on only if both flags are set. |
| `MainGui.LoadNnCancelledChangesNothing` | first_breaks/desktop/main_gui.py:214-218 | A cancelled model dialog leaves the window unchanged. |
| `MainGui.LoadNnRejectedOnlyWarns` | first_breaks/desktop/main_gui.py:218-236 | A weights file that is missing or changed only adds the "Model loading error" warning. Flags, buttons, picker and jobs stay as they were. |
| `MainGui.LoadNnAcceptedLoadsBeforePickerArrives` | first_breaks/desktop/main_gui.py:219-230 | A valid weights file submits one InitNet job, disables loading and sets `model_loaded`, all at once. The picker is left unchanged. Picking is enabled iff a file was already selected. The status ends with the open-SGY hint iff no file is selected. |
| `MainGui.ModelLoadedEndsWithHintIff` | first_breaks/desktop/main_gui.py:225-228 | The "Model loaded successfully" text ends with ". Open SGY file to start picking" exactly when the hint was appended. |
| `MainGui.GetFilenameCancelledChangesNothing` | first_breaks/desktop/main_gui.py:238-242 | A cancelled SGY dialog leaves the window unchanged. |
| `MainGui.GetFilenameSelectsEvenOnFailure` | first_breaks/desktop/main_gui.py:242-253 | A chosen file sets `fn` and clears `picks`. It sets `sgy_selected` even when showing the file failed, and leaves open-SGY enabled. It enables picking iff a model is loaded. It sets the status line, the stored gather and the warnings for each outcome. |
| `MainGui.ShowSgyReenablesOpening` | first_breaks/desktop/main_gui.py:194-207 | Open-SGY is enabled after every outcome. The gather is kept unless reading failed. The plot is shown only on success. A failure adds one warning named after the exception. Nothing else changes. |
| `MainGui.CalcFbLocksActions` | first_breaks/desktop/main_gui.py:154-164 | Picking and open-SGY are disabled. One picking job is appended, carrying the current picker, `fn` and two traces per gather. |
| `MainGui.FinishFbEnablesOnlyPicking` | first_breaks/desktop/main_gui.py:173-175 | Picking is enabled again and the progress bar hidden. Open-SGY and load-model are unchanged. |
| `MainGui.ResultFbReenablesOnlyWhenItCompletes` | first_breaks/desktop/main_gui.py:180-192 | The handler runs to its end exactly when `num_batches` is not zero and, for a successful result, `plot_picks` does not raise. Then picking and open-SGY are enabled again, on success and failure alike, and only a failure adds the "InternalError" warning. When it raises, the window is left as it was. |
| `MainGui.OpeningStaysDisabledWhenPlotRaises` | first_breaks/desktop/main_gui.py:153-192 | Picking, then a successful result whose `plot_picks` raises, then `finish_fb`: picking is enabled again but open-SGY stays disabled. |
| `MainGui.CanFire` | first_breaks/desktop/main_gui.py:76-163 | A toolbar event fires only while its action is enabled (the `triggered` connections at 76, 81 and 89). A job signal fires only after some job was submitted (the signal connections at 148 and 159-163). |
| `MainGui.Step` | first_breaks/desktop/main_gui.py:76-163 | An event that cannot fire leaves the window unchanged. |
| `MainGui.StepKeepsInvariant` | first_breaks/desktop/main_gui.py:146-253 | Every handler keeps the reachable-window invariant: load-model is enabled iff no model was accepted; a file is selected iff `fn` is set; `model_loaded` is set iff an InitNet job was submitted; picking enabled or submitted implies both flags; a picker implies `model_loaded`; `picks` stays None. |
| `MainGui.RunKeepsInvariant` | first_breaks/desktop/main_gui.py:146-253 | The invariant holds after any sequence of events. |
| `MainGui.StepNeverClearsFlags` | first_breaks/desktop/main_gui.py:146-253 | No handler resets `sgy_selected` or `model_loaded`, and none withdraws a submitted job: the job list before the event is a prefix of the one after it. |
| `MainGui.RunNeverClearsFlags` | first_breaks/desktop/main_gui.py:218-253 | Across any sequence of events, a set flag stays set and the job list only grows. |
| `MainGui.PickingEnabledOnlyWhenBothFlagsSet` | first_breaks/desktop/main_gui.py:209-253 | In every reachable window, if picking is enabled or was ever submitted, then a file is selected and a model is accepted. |
| `MainGui.LoadingEnabledUntilModelAccepted` | first_breaks/desktop/main_gui.py:214-236 | In every reachable window, load-model is enabled exactly until a model is accepted. |
| `MainGui.PickingCanBeSubmittedBeforePickerArrives` | first_breaks/desktop/main_gui.py:146-164 | Opening a file, loading a valid model and then picking submits the picking job with no picker. |
| `MainGui.MainWindow.constructor` | first_breaks/desktop/main_gui.py:47-144 | The fields start in the initial window state. The export action starts disabled, and since it is a constant no handler can enable it. |
| `MainGui.MainWindow.ThreadInitNet` | first_breaks/desktop/main_gui.py:146-149 | One InitNet job is appended for the weights. Nothing else changes. |
| `MainGui.MainWindow.InitNet` | first_breaks/desktop/main_gui.py:151-152 | The picker is stored. Nothing else changes. |
| `MainGui.MainWindow.CalcFb` | first_breaks/desktop/main_gui.py:154-165 | The fields end as `CalcFbStep` gives, which `CalcFbLocksActions` characterises. |
| `MainGui.MainWindow.StartFb` | first_breaks/desktop/main_gui.py:167-168 | The progress bar is shown. |
| `MainGui.MainWindow.MessageFb` | first_breaks/desktop/main_gui.py:170-171 | The status line shows the message. |
| `MainGui.MainWindow.FinishFb` | first_breaks/desktop/main_gui.py:173-175 | The fields end as `FinishFbStep` gives. |
| `MainGui.MainWindow.ProgressFb` | first_breaks/desktop/main_gui.py:177-178 | The progress value is set. |
| `MainGui.MainWindow.ResultFb` | first_breaks/desktop/main_gui.py:180-192 | The fields end as `ResultFbStep` gives: unchanged when the printout divides by zero or `plot_picks` raises, otherwise the warning for a failure and both buttons enabled. |
| `MainGui.MainWindow.ShowSgy` | first_breaks/desktop/main_gui.py:194-207 | The fields end as `ShowSgyStep` gives. |
| `MainGui.MainWindow.UnlockPickingIfReady` | first_breaks/desktop/main_gui.py:209-212 | The fields end as `UnlockStep` gives. |
| `MainGui.MainWindow.LoadNn` | first_breaks/desktop/main_gui.py:214-236 | The fields, including the shared `ReadyToProcess` object, end as `LoadNnStep` gives. |
| `MainGui.MainWindow.GetFilename` | first_breaks/desktop/main_gui.py:238-253 | The fields, including the shared `ReadyToProcess` object, end as `GetFilenameStep` gives. |
| `Graph.Error.ClassName` | first_breaks/desktop/graph.py:191-203 | Size errors are `UnsupportedImageSize`, the pixel-count error is `HighMemoryConsumption`, the keyword-argument and exclusive-picks errors are `ValueError`, and the unsupported source is `TypeError`. |
| `Graph.MessageNumbersReadBack` | first_breaks/desktop/graph.py:199-238 | `Error.Message` renders the f-string texts; in the too-tall, too-wide and too-many-pixels messages the digits right after the fixed lead-in read back as the size or pixel count. |
| `Graph.Decimal` | first_breaks/desktop/graph.py:219-236 | `str` of an integer: a non-negative number is its digits and they denote it; a negative one is `-` followed by the digits of its magnitude. |
| `Graph.DigitsValue` | first_breaks/desktop/graph.py:219-236 | The digits written for `n` denote `n`. |
| `Graph.AvoidMemoryBomb` | first_breaks/desktop/graph.py:210-238 | A height over 65000 raises `UnsupportedImageSize` for the height; this is checked first. Otherwise a width over 65000 raises it for the width. Otherwise more than 65000*2000 pixels raises `HighMemoryConsumption` with the pixel count. The check passes exactly when all three bounds hold. |
| `Graph.AvoidMemoryBombBoundaries` | first_breaks/desktop/graph.py:207-238 | The bounds are inclusive: 65000x2000 and 2000x65000 pass, 65000x2001 is too many pixels, and a request both too tall and too wide reports the height. |
| `Graph.AcceptedSizesDownwardClosed` | first_breaks/desktop/graph.py:217-238 | Shrinking an accepted image on either side, down to zero, keeps it accepted. |
| `Graph.TruncateToInt` | first_breaks/desktop/graph.py:278-280 | `int()` truncates toward zero: the result lies within one of the argument, on the zero side. |
| `Graph.ExportWidth` | first_breaks/desktop/graph.py:275-280 | An explicit width is used as given. Without one and without a traces window, the width is `width_per_trace*num_traces + headers_total_pixels`. With a traces window it is the headers plus `width_per_trace` times the window's span, truncated toward zero. |
| `Graph.PicksToPlot` | first_breaks/desktop/graph.py:289-294 | The task's picks win. Without a task, `picks_ms` is plotted exactly when it is given and non-empty. |
| `Graph.Export` | first_breaks/desktop/graph.py:269-306 | Extra positional arguments raise `ValueError` first. Then `picks_ms` together with a task raises `ValueError`. Then the size check runs on the final height and width, and its error passes through. On success: an explicit width is used unchanged; without width or traces window the width is `width_per_trace*num_traces + headers_total_pixels`; the width is `ExportWidth`; the picks are those `PicksToPlot` chooses; the processing region is drawn, with the task's parameters, exactly when a task is given and `show_processing_region` is set. |
| `Graph.DefaultExportFitsUpTo3247Traces` | first_breaks/desktop/graph.py:260-282 | With all defaults, a gather can be exported exactly when it has at most 3247 traces. |
| `Graph.EmptyPicksPlotNothingButClashWithTask` | first_breaks/desktop/graph.py:272-294 | An empty `picks_ms` plots nothing, but together with a task it still raises `ValueError`. |
| `Graph.ResolveSource` | first_breaks/desktop/graph.py:380-396 | Extra positional arguments raise `ValueError`. A str, path or bytes source is read as an SGY file. An array is wrapped with `dt_mcs`. An SGY is used as is. A task gives its gather and itself. Any other type raises `TypeError`. Only a task yields a task. |
| `Graph.ExportImage` | first_breaks/desktop/graph.py:353-430 | A refused source or extra positional arguments give `ResolveSource`'s error. Otherwise the result is `Export` on the resolved gather and task, with no extra arguments. Success implies no extra arguments and a supported source type. |
| `Graph.ExportImageChecksArgumentsFirst` | first_breaks/desktop/graph.py:380-381 | Extra positional arguments are refused before the source type is examined. |
| `Graph.ExportImageTaskRejectsPicks` | first_breaks/desktop/graph.py:392-414 | A task source together with `picks_ms` raises the mutual-exclusion `ValueError`. |
| `Graph.ExportImageRegionOnlyForTasks` | first_breaks/desktop/graph.py:383-415 | Through `export_image`, the processing region is drawn only for a task source, and a task source plots the task's own picks on the task's gather. |

## Left out

- Qt widget construction: toolbar, icons, geometry, status-bar layout, graph widget and `WarnBox`. A dialog is recorded only as a `Warning(title, message)` appended to the window's list.
- `QFileDialog`. Its answer is a string parameter that is empty when the dialog was cancelled.
- `QThreadPool`, `InitNet` and `PickerQRunnable`. Submitting a job appends it to `jobs`. Job signals are separate events that can arrive any time after a job of their kind was submitted. The order of one job's signals (started, result, finished) is not modelled, because it is the thread module's contract.
- `calc_hash`, the SGY reader and the SGY constructor. These are foreign calls, so they are parameters.
- `MainWindow.ShowSgy`: the outcome of `show_sgy` is an input. As written, `show_sgy` calls `plotseis_sgy`, which `GraphWidget` does not define, so every successful read ends in `PlotFailed`. The flags and buttons change the same way on every outcome.
- Plotting and rendering: `plotseis`, `_plot_trace_fast`, `plot_picks`, `plot_processing_region`, the `remove_*` helpers, `ImageExporter`, saving the image, fonts, axes, tick spacing and window ranges. `Export` stops at the plan of what would be drawn.
- Floating-point parameters: gain, clip, time axes and `region_start_time`. The traces-window width uses exact reals with truncation toward zero, so binary floating-point rounding is not modelled.
- `MainGui.MainWindow.ResultFb`: the printout itself and the drawing of the picks are not modelled. The outcome of `plot_picks` is an input, `PlotOutcome`. As written it always raises for this window: `plot_picks` reads `self.sgy.shape` of the graph widget (graph.py:179), and only `plotseis` sets that field, which the window never calls.
- An exception that escapes a handler: PyQt5 by default ends the application. The model keeps the window as it stood when the exception was raised and lets later events arrive.
- `Graph.PicksToPlot`: `if task:` is taken to be true for every task, because `Task` is not part of this model and an object without `__bool__` or `__len__` is truthy.
- Application lifetime: `QApplication`, `exec`, `QTimer.singleShot`, `close_widget`, `warnings.filterwarnings`, the `__main__` block.
