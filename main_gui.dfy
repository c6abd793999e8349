/**
 * The main window of the first-breaks picking desktop application
 * (first_breaks/desktop/main_gui.py): the weights-file classifier, the two-flag
 * readiness gate, and the handlers that decide which toolbar actions are enabled.
 *
 * The handlers are specified twice, as the source's structure calls for:
 *  - as pure transitions over a `WindowState` snapshot (`LoadNnStep`, `CalcFbStep`, ...),
 *    folded over sequences of user actions and job signals by `Run`;
 *  - as the methods of the `MainWindow` class, which update its fields step by step and
 *    are proved to end in exactly the state the matching transition describes.
 * Lemmas state what the handlers promise, one by one and over every reachable trace.
 */
module MainGui {
  import opened Common

  type Path = string
  type Hash = string

  // ------------------------------------------------------------------ FileState

  /** The three states of a candidate model-weights file. */
  datatype FileState = ValidFile | FileNotExists | FileChanged

  /**
   * FileState.get_file_state. `files` are the paths that are regular files on disk and
   * `calcHash` is the content hash of each (calc_hash lives outside this model).
   */
  function GetFileState(files: set<Path>, calcHash: Path -> Hash, fname: Path, fhash: Hash): (r: FileState)
    ensures r == FileNotExists <==> fname !in files
    ensures r == ValidFile <==> fname in files && calcHash(fname) == fhash
    ensures r == FileChanged <==> fname in files && calcHash(fname) != fhash
  {
    if fname !in files then FileNotExists
    else if calcHash(fname) == fhash then ValidFile
    else FileChanged
  }

  /** A path that is not a regular file is classified the same whatever hash is expected. */
  lemma MissingFileIgnoresExpectedHash(files: set<Path>, calcHash: Path -> Hash, fname: Path, h1: Hash, h2: Hash)
    requires fname !in files
    ensures GetFileState(files, calcHash, fname, h1) == GetFileState(files, calcHash, fname, h2) == FileNotExists
  {
  }

  /** An existing file is valid for at most one expected hash; every other hash reports it changed. */
  lemma ValidForExactlyOneHash(files: set<Path>, calcHash: Path -> Hash, fname: Path, h1: Hash, h2: Hash)
    requires GetFileState(files, calcHash, fname, h1) == ValidFile
    ensures GetFileState(files, calcHash, fname, h2) == ValidFile <==> h1 == h2
    ensures h1 != h2 ==> GetFileState(files, calcHash, fname, h2) == FileChanged
  {
  }

  // ------------------------------------------------------------ ReadyToProcess

  /**
   * The readiness rule of ReadyToProcess.is_ready, on the two flag values: the flags are
   * EQUAL. It is kept literally; `ReadyTruthTable` spells out what that means.
   */
  predicate Ready(sgySelected: bool, modelLoaded: bool): (r: bool)
    ensures sgySelected && modelLoaded ==> r
    ensures r && (sgySelected || modelLoaded) ==> sgySelected && modelLoaded
    ensures !sgySelected && !modelLoaded ==> r
  {
    sgySelected == modelLoaded
  }

  /** The literal rule holds when neither prerequisite is met, as well as when both are. */
  lemma ReadyTruthTable()
    ensures Ready(false, false) && Ready(true, true)
    ensures !Ready(true, false) && !Ready(false, true)
  {
  }

  /** Once at least one flag is set, equality of the flags is the same as both being set. */
  lemma ReadyAfterOneFlagIsConjunction(sgySelected: bool, modelLoaded: bool)
    requires sgySelected || modelLoaded
    ensures Ready(sgySelected, modelLoaded) <==> sgySelected && modelLoaded
  {
  }

  /** The two prerequisites of picking; the window updates the flags in place. */
  class ReadyToProcess {
    var sgySelected: bool
    var modelLoaded: bool

    constructor()
      ensures !sgySelected && !modelLoaded
      ensures IsReady()
    {
      sgySelected := false;
      modelLoaded := false;
    }

    /** ReadyToProcess.is_ready: the literal rule on the object's current flags. */
    predicate IsReady(): (r: bool)
      reads this
      ensures sgySelected && modelLoaded ==> r
      ensures r && (sgySelected || modelLoaded) ==> sgySelected && modelLoaded
    {
      Ready(sgySelected, modelLoaded)
    }
  }

  // ------------------------------------------------------------- window state

  /** The network handle an InitNet job produces; identified by the weights it was loaded from. */
  datatype Picker = Picker(weights: Path)

  /** First-break picks in milliseconds, one per trace. */
  type Picks = seq<real>

  /** The picking task `calc_fb` builds: the selected SGY path and the traces per gather. */
  datatype PickTask = PickTask(sgy: Option<Path>, tracesPerGather: int)

  /** A job handed to the thread pool: network initialisation, or a picking run. */
  datatype Job = InitNetJob(weights: Path) | PickingJob(picker: Option<Picker>, task: PickTask)

  /** A warning dialog that was shown: its title and message. */
  datatype Warning = Warning(title: string, message: string)

  /** An exception raised while showing an SGY file: its class name and text. */
  datatype Exception = Exception(name: string, message: string)

  /** How `show_sgy` went: shown, failed to read the file, or read it and failed to plot it. */
  datatype ShowOutcome = Shown | ReadFailed(error: Exception) | PlotFailed(error: Exception)

  /** The payload a picking job delivers through its `result` signal. */
  datatype PickResult = PickResult(success: bool, errorMessage: string, numBatches: int)

  /** How drawing a successful result's picks on the plot went: drawn, or an exception was raised. */
  datatype PlotOutcome = Plotted | PlotRaised(error: Exception)

  /** What lies outside the window: the regular files, their hashes, and the expected CKPT_HASH. */
  datatype Env = Env(files: set<Path>, calcHash: Path -> Hash, ckptHash: Hash)

  const TracesPerGather: int := 2

  /** What the status line shows; `Text` gives the characters. */
  datatype StatusText =
    | OpenSgyOrLoadModel
    | ModelLoaded(openSgyHint: bool)
    | LoadModelHint
    | ClickToPick
    | JobMessage(message: string)
  {
    function Text(): string
    {
      match this
      case OpenSgyOrLoadModel => "Open SGY file or load model"
      case ModelLoaded(hint) => "Model loaded successfully" + (if hint then OpenSgyHint else "")
      case LoadModelHint => "Load model to start picking"
      case ClickToPick => "Click on picking to start processing"
      case JobMessage(message) => message
    }
  }

  const OpenSgyHint: string := ". Open SGY file to start picking"

  /** The "model loaded" text ends with the open-SGY hint exactly when the hint was added. */
  lemma ModelLoadedEndsWithHintIff(hint: bool)
    ensures var text := ModelLoaded(hint).Text();
      (|text| >= |OpenSgyHint| && text[|text| - |OpenSgyHint|..] == OpenSgyHint) <==> hint
  {
  }
  const ModelLoadingError: Warning :=
    Warning("Model loading error",
            "The file cannot be used as model weights. Download the file according to the manual and select it.")
  const InternalErrorTitle: string := "InternalError"

  /**
   * A snapshot of everything the handlers read or write: the two readiness flags, the
   * enabled flags of the three toolbar actions a handler can change, the selected file
   * and loaded network, the status line and progress bar, whether the plot is visible,
   * the jobs submitted so far (in order) and the warning dialogs shown so far (in order).
   */
  datatype WindowState = WindowState(
    sgySelected: bool,
    modelLoaded: bool,
    loadNnEnabled: bool,
    getFilenameEnabled: bool,
    fbEnabled: bool,
    sgy: Option<Path>,
    fn: Option<Path>,
    picks: Option<Picks>,
    picker: Option<Picker>,
    status: StatusText,
    progressVisible: bool,
    progressValue: Option<int>,
    graphVisible: bool,
    jobs: seq<Job>,
    warnings: seq<Warning>)

  /** The state `MainWindow.__init__` leaves behind. */
  function Initial(): WindowState
  {
    WindowState(
      sgySelected := false, modelLoaded := false,
      loadNnEnabled := true, getFilenameEnabled := true, fbEnabled := false,
      sgy := None, fn := None, picks := None, picker := None,
      status := OpenSgyOrLoadModel, progressVisible := false, progressValue := None,
      graphVisible := false, jobs := [], warnings := [])
  }

  // ----------------------------------------------------- handlers as transitions

  /** `_thread_init_net`: submit an InitNet job for the weights. */
  function ThreadInitNetStep(s: WindowState, weights: Path): WindowState
  {
    s.(jobs := s.jobs + [InitNetJob(weights)])
  }

  /** `init_net`: the InitNet job finished and hands over the network. */
  function InitNetStep(s: WindowState, picker: Picker): WindowState
  {
    s.(picker := Some(picker))
  }

  /** `calc_fb`: lock picking and file opening, submit a picking job. */
  function CalcFbStep(s: WindowState): WindowState
  {
    s.(fbEnabled := false, getFilenameEnabled := false,
       jobs := s.jobs + [PickingJob(s.picker, PickTask(s.fn, TracesPerGather))])
  }

  /** `start_fb`: show the progress bar. */
  function StartFbStep(s: WindowState): WindowState
  {
    s.(progressVisible := true)
  }

  /** `message_fb`: show the job's message in the status line. */
  function MessageFbStep(s: WindowState, message: string): WindowState
  {
    s.(status := JobMessage(message))
  }

  /** `progress_fb`: set the progress bar's value. */
  function ProgressFbStep(s: WindowState, value: int): WindowState
  {
    s.(progressValue := Some(value))
  }

  /** `finish_fb`: hide the progress bar and re-enable picking. */
  function FinishFbStep(s: WindowState): WindowState
  {
    s.(progressVisible := false, fbEnabled := true)
  }

  /**
   * Whether `result_fb` runs to its end: the timing printout divides by `num_batches`, and a
   * successful result is drawn by `plot_picks`; either can raise before the buttons are reached.
   */
  predicate ResultFbCompletes(result: PickResult, plot: PlotOutcome)
  {
    result.numBatches != 0 && (!result.success || plot.Plotted?)
  }

  /**
   * `result_fb`: divide by `num_batches` for the printout, draw the picks of a successful run
   * or warn about a failed one, then re-enable file opening and picking. An exception raised
   * on the way leaves the handler before it has changed anything.
   */
  function ResultFbStep(s: WindowState, result: PickResult, plot: PlotOutcome): WindowState
  {
    if result.numBatches == 0 then s
    else if result.success then
      match plot
      case Plotted => s.(getFilenameEnabled := true, fbEnabled := true)
      case PlotRaised(_) => s
    else
      s.(warnings := s.warnings + [Warning(InternalErrorTitle, result.errorMessage)],
         getFilenameEnabled := true, fbEnabled := true)
  }

  /** `show_sgy`: read and plot `fn`; report an exception in a dialog; always re-enable opening. */
  function ShowSgyStep(s: WindowState, outcome: ShowOutcome): WindowState
  {
    var shown := match outcome
      case Shown => s.(sgy := s.fn, graphVisible := true)
      case ReadFailed(e) => s.(warnings := s.warnings + [Warning(e.name, e.message)])
      case PlotFailed(e) => s.(sgy := s.fn, warnings := s.warnings + [Warning(e.name, e.message)]);
    shown.(getFilenameEnabled := true)
  }

  /** `unlock_pickng_if_ready`: enable picking when the gate is ready. */
  function UnlockStep(s: WindowState): WindowState
  {
    if Ready(s.sgySelected, s.modelLoaded) then s.(fbEnabled := true, status := ClickToPick) else s
  }

  /** `load_nn`, given the file dialog's answer (empty when cancelled). */
  function LoadNnStep(env: Env, s: WindowState, filename: Path): WindowState
  {
    if filename == "" then s
    else if GetFileState(env.files, env.calcHash, filename, env.ckptHash) == ValidFile then
      var submitted := ThreadInitNetStep(s, filename).(loadNnEnabled := false, modelLoaded := true);
      UnlockStep(submitted.(status := ModelLoaded(openSgyHint := !submitted.sgySelected)))
    else
      s.(warnings := s.warnings + [ModelLoadingError])
  }

  /** `get_filename`, given the file dialog's answer (empty when cancelled) and how showing it went. */
  function GetFilenameStep(s: WindowState, filename: Path, outcome: ShowOutcome): WindowState
  {
    if filename == "" then s
    else
      var selected := ShowSgyStep(s.(fn := Some(filename), picks := None), outcome).(sgySelected := true);
      var hinted := if !selected.modelLoaded then selected.(status := LoadModelHint) else selected;
      UnlockStep(hinted)
  }

  // ------------------------------------------------- what each handler promises

  /** The window starts with loading and opening enabled, picking disabled, nothing loaded. */
  lemma InitialWindow()
    ensures var s := Initial();
      && s.loadNnEnabled && s.getFilenameEnabled && !s.fbEnabled
      && !s.sgySelected && !s.modelLoaded
      && s.picker == None && s.fn == None && s.picks == None
  {
  }

  /** The literal gate is already "ready" in the initial window; picking is off only because the button starts disabled. */
  lemma InitialGateReadyButPickingDisabled()
    ensures Ready(Initial().sgySelected, Initial().modelLoaded) && !Initial().fbEnabled
  {
  }

  /** `unlock_pickng_if_ready` only ever enables picking, exactly when the gate is ready, and touches nothing else. */
  lemma UnlockOnlyEnables(s: WindowState)
    ensures UnlockStep(s).fbEnabled == (s.fbEnabled || Ready(s.sgySelected, s.modelLoaded))
    ensures UnlockStep(s) == s || UnlockStep(s) == s.(fbEnabled := true, status := ClickToPick)
  {
  }

  /** Called right after one flag was set, the unlock enables picking only when both flags are set. */
  lemma UnlockAfterOneFlagNeedsBoth(s: WindowState)
    requires s.sgySelected || s.modelLoaded
    ensures UnlockStep(s).fbEnabled && !s.fbEnabled ==> s.sgySelected && s.modelLoaded
  {
  }

  /** A cancelled model dialog changes nothing. */
  lemma LoadNnCancelledChangesNothing(env: Env, s: WindowState)
    ensures LoadNnStep(env, s, "") == s
  {
  }

  /** A weights file that is missing or changed only adds a warning. */
  lemma LoadNnRejectedOnlyWarns(env: Env, s: WindowState, filename: Path)
    requires filename != ""
    requires GetFileState(env.files, env.calcHash, filename, env.ckptHash) != ValidFile
    ensures LoadNnStep(env, s, filename) == s.(warnings := s.warnings + [ModelLoadingError])
  {
  }

  /**
   * A valid weights file submits the InitNet job, disables loading and sets `modelLoaded` at
   * once; the picker is left as it was until the job hands it over. The status line ends
   * with the hint to open an SGY file exactly when no file is selected yet.
   */
  lemma LoadNnAcceptedLoadsBeforePickerArrives(env: Env, s: WindowState, filename: Path)
    requires filename != ""
    requires GetFileState(env.files, env.calcHash, filename, env.ckptHash) == ValidFile
    ensures var t := LoadNnStep(env, s, filename);
      && t.jobs == s.jobs + [InitNetJob(filename)]
      && !t.loadNnEnabled && t.modelLoaded && t.picker == s.picker
      && t.sgySelected == s.sgySelected
      && t.fbEnabled == (s.fbEnabled || s.sgySelected)
      && t.status == (if s.sgySelected then ClickToPick else ModelLoaded(openSgyHint := true))
      && t.getFilenameEnabled == s.getFilenameEnabled && t.warnings == s.warnings
  {
  }

  /** A cancelled SGY dialog changes nothing. */
  lemma GetFilenameCancelledChangesNothing(s: WindowState, outcome: ShowOutcome)
    ensures GetFilenameStep(s, "", outcome) == s
  {
  }

  /**
   * A chosen SGY file becomes `fn`, clears the picks and counts as selected even when
   * showing it failed; opening stays enabled; the network and jobs are untouched.
   */
  lemma GetFilenameSelectsEvenOnFailure(s: WindowState, filename: Path, outcome: ShowOutcome)
    requires filename != ""
    ensures var t := GetFilenameStep(s, filename, outcome);
      && t.fn == Some(filename) && t.picks == None && t.sgySelected && t.getFilenameEnabled
      && t.modelLoaded == s.modelLoaded && t.picker == s.picker && t.jobs == s.jobs
      && t.loadNnEnabled == s.loadNnEnabled
      && t.fbEnabled == (s.fbEnabled || s.modelLoaded)
      && t.status == (if s.modelLoaded then ClickToPick else LoadModelHint)
      && t.sgy == (if outcome.ReadFailed? then s.sgy else Some(filename))
      && t.warnings == (if outcome.Shown? then s.warnings
                        else s.warnings + [Warning(outcome.error.name, outcome.error.message)])
  {
    var chosen := s.(fn := Some(filename), picks := None);
    var shown := ShowSgyStep(chosen, outcome);
    ShowSgyReenablesOpening(chosen, outcome);
    var selected := shown.(sgySelected := true);
    var hinted := if !selected.modelLoaded then selected.(status := LoadModelHint) else selected;
    assert GetFilenameStep(s, filename, outcome) == UnlockStep(hinted);
    UnlockOnlyEnables(hinted);
  }

  /** `show_sgy` re-enables opening on every outcome, and shows the plot only on success. */
  lemma ShowSgyReenablesOpening(s: WindowState, outcome: ShowOutcome)
    ensures var t := ShowSgyStep(s, outcome);
      && t.getFilenameEnabled
      && t.graphVisible == (s.graphVisible || outcome.Shown?)
      && t.sgy == (if outcome.ReadFailed? then s.sgy else s.fn)
      && t.warnings == (if outcome.Shown? then s.warnings
                        else s.warnings + [Warning(outcome.error.name, outcome.error.message)])
      && t == s.(getFilenameEnabled := t.getFilenameEnabled, graphVisible := t.graphVisible,
                 sgy := t.sgy, warnings := t.warnings)
  {
  }

  /** `calc_fb` disables picking and opening and submits one picking job with the current picker and file. */
  lemma CalcFbLocksActions(s: WindowState)
    ensures var t := CalcFbStep(s);
      && !t.fbEnabled && !t.getFilenameEnabled && t.loadNnEnabled == s.loadNnEnabled
      && t.jobs == s.jobs + [PickingJob(s.picker, PickTask(s.fn, TracesPerGather))]
  {
  }

  /** `finish_fb` re-enables picking only: opening stays as it was. */
  lemma FinishFbEnablesOnlyPicking(s: WindowState)
    ensures var t := FinishFbStep(s);
      && t.fbEnabled && !t.progressVisible && t.getFilenameEnabled == s.getFilenameEnabled
      && t.loadNnEnabled == s.loadNnEnabled
  {
  }

  /**
   * `result_fb` re-enables picking and opening exactly when it runs to its end, on success and
   * failure alike, and only a failed run warns; when it raises, the window is left as it was.
   */
  lemma ResultFbReenablesOnlyWhenItCompletes(s: WindowState, result: PickResult, plot: PlotOutcome)
    ensures var t := ResultFbStep(s, result, plot);
      && (ResultFbCompletes(result, plot) ==> t.fbEnabled && t.getFilenameEnabled)
      && (ResultFbCompletes(result, plot) ==>
            t == s.(fbEnabled := true, getFilenameEnabled := true, warnings := t.warnings))
      && (!ResultFbCompletes(result, plot) ==> t == s)
      && t.warnings == (if ResultFbCompletes(result, plot) && !result.success
                        then s.warnings + [Warning(InternalErrorTitle, result.errorMessage)]
                        else s.warnings)
  {
  }

  // ------------------------------------------------------------------ traces

  /** What can happen to the window: a toolbar action, or a signal of a submitted job. */
  datatype Event =
    | LoadNn(filename: Path)
    | InitNet(picker: Picker)
    | GetFilename(filename: Path, outcome: ShowOutcome)
    | CalcFb
    | StartFb
    | MessageFb(message: string)
    | ProgressFb(value: int)
    | FinishFb
    | ResultFb(result: PickResult, plot: PlotOutcome)

  predicate InitNetSubmitted(jobs: seq<Job>)
  {
    exists j :: j in jobs && j.InitNetJob?
  }

  predicate PickingSubmitted(jobs: seq<Job>)
  {
    exists j :: j in jobs && j.PickingJob?
  }

  /**
   * Whether an event can reach its handler: a toolbar action only while it is enabled,
   * a job's signal only once a job of that kind has been submitted.
   */
  predicate CanFire(s: WindowState, e: Event): (r: bool)
    ensures r && e.LoadNn? ==> s.loadNnEnabled
    ensures r && e.GetFilename? ==> s.getFilenameEnabled
    ensures r && e.CalcFb? ==> s.fbEnabled
    ensures r && !(e.LoadNn? || e.GetFilename? || e.CalcFb?) ==> |s.jobs| > 0
  {
    match e
    case LoadNn(_) => s.loadNnEnabled
    case GetFilename(_, _) => s.getFilenameEnabled
    case CalcFb => s.fbEnabled
    case InitNet(_) => InitNetSubmitted(s.jobs)
    case _ => PickingSubmitted(s.jobs)
  }

  /** One event: its handler's transition if it can fire, otherwise nothing happens. */
  function Step(env: Env, s: WindowState, e: Event): (r: WindowState)
    ensures !CanFire(s, e) ==> r == s
  {
    if !CanFire(s, e) then s
    else match e
      case LoadNn(f) => LoadNnStep(env, s, f)
      case InitNet(p) => InitNetStep(s, p)
      case GetFilename(f, o) => GetFilenameStep(s, f, o)
      case CalcFb => CalcFbStep(s)
      case StartFb => StartFbStep(s)
      case MessageFb(m) => MessageFbStep(s, m)
      case ProgressFb(v) => ProgressFbStep(s, v)
      case FinishFb => FinishFbStep(s)
      case ResultFb(r, p) => ResultFbStep(s, r, p)
  }

  /** The window after a sequence of events, in order. */
  function Run(env: Env, s: WindowState, events: seq<Event>): WindowState
    decreases |events|
  {
    if events == [] then s else Run(env, Step(env, s, events[0]), events[1..])
  }

  /**
   * What holds of every window reachable from `Initial`: loading
   * is enabled exactly until a model was accepted; a file is selected exactly when `fn` is
   * set; `modelLoaded` is set exactly when an InitNet job was submitted; picking is enabled,
   * or was ever submitted, only when both flags are set; every picking job names the selected
   * file; a picker arrives only after `modelLoaded`; picks are never set by this window.
   */
  ghost predicate Inv(s: WindowState)
  {
    && s.loadNnEnabled == !s.modelLoaded
    && (s.sgySelected <==> s.fn.Some?)
    && (s.modelLoaded <==> InitNetSubmitted(s.jobs))
    && (s.fbEnabled ==> s.sgySelected && s.modelLoaded)
    && (PickingSubmitted(s.jobs) ==> s.sgySelected && s.modelLoaded)
    && (forall j :: j in s.jobs && j.PickingJob? ==> j.task.sgy.Some? && j.task.tracesPerGather == TracesPerGather)
    && (s.picker.Some? ==> s.modelLoaded)
    && s.picks == None
  }

  lemma InitialKeepsInvariant()
    ensures Inv(Initial())
  {
  }

  /** The model dialog keeps the invariant: an accepted model sets `modelLoaded` together with its InitNet job. */
  lemma LoadNnKeepsInvariant(env: Env, s: WindowState, f: Path)
    requires Inv(s)
    ensures Inv(Step(env, s, LoadNn(f)))
  {
    if s.loadNnEnabled && f != "" {
      if GetFileState(env.files, env.calcHash, f, env.ckptHash) == ValidFile {
        LoadNnAcceptedLoadsBeforePickerArrives(env, s, f);
        var t := LoadNnStep(env, s, f);
        assert InitNetJob(f) in t.jobs;
        assert forall j :: j in t.jobs ==> j in s.jobs || j == InitNetJob(f);
      } else {
        LoadNnRejectedOnlyWarns(env, s, f);
      }
    }
  }

  /** The SGY dialog keeps the invariant: `fn` and `sgySelected` are set together. */
  lemma GetFilenameKeepsInvariant(env: Env, s: WindowState, f: Path, o: ShowOutcome)
    requires Inv(s)
    ensures Inv(Step(env, s, GetFilename(f, o)))
  {
    if s.getFilenameEnabled && f != "" {
      GetFilenameSelectsEvenOnFailure(s, f, o);
    }
  }

  /** Picking keeps the invariant: it is enabled only when both flags are set, and its job names `fn`. */
  lemma CalcFbKeepsInvariant(env: Env, s: WindowState)
    requires Inv(s)
    ensures Inv(Step(env, s, CalcFb))
  {
    if s.fbEnabled {
      var t := CalcFbStep(s);
      assert forall j :: j in t.jobs ==> j in s.jobs || j == PickingJob(s.picker, PickTask(s.fn, TracesPerGather));
      assert InitNetSubmitted(t.jobs) == InitNetSubmitted(s.jobs);
    }
  }

  lemma StepKeepsInvariant(env: Env, s: WindowState, e: Event)
    requires Inv(s)
    ensures Inv(Step(env, s, e))
  {
    match e
    case LoadNn(f) => LoadNnKeepsInvariant(env, s, f);
    case GetFilename(f, o) => GetFilenameKeepsInvariant(env, s, f, o);
    case CalcFb => CalcFbKeepsInvariant(env, s);
    case _ =>
  }

  lemma {:induction false} RunKeepsInvariant(env: Env, s: WindowState, events: seq<Event>)
    requires Inv(s)
    ensures Inv(Run(env, s, events))
    decreases |events|
  {
    if events != [] {
      StepKeepsInvariant(env, s, events[0]);
      RunKeepsInvariant(env, Step(env, s, events[0]), events[1..]);
    }
  }

  /** `t` keeps both readiness flags that `s` had set and every job `s` had submitted, in order. */
  predicate Monotone(s: WindowState, t: WindowState)
  {
    && (s.sgySelected ==> t.sgySelected) && (s.modelLoaded ==> t.modelLoaded) && s.jobs <= t.jobs
  }

  /** A model dialog never resets a flag or withdraws a job. */
  lemma LoadNnMonotone(env: Env, s: WindowState, f: Path)
    ensures Monotone(s, Step(env, s, LoadNn(f)))
  {
    if s.loadNnEnabled && f != "" {
      if GetFileState(env.files, env.calcHash, f, env.ckptHash) == ValidFile {
        LoadNnAcceptedLoadsBeforePickerArrives(env, s, f);
      } else {
        LoadNnRejectedOnlyWarns(env, s, f);
      }
    }
  }

  /** An SGY dialog never resets a flag or withdraws a job. */
  lemma GetFilenameMonotone(env: Env, s: WindowState, f: Path, o: ShowOutcome)
    ensures Monotone(s, Step(env, s, GetFilename(f, o)))
  {
    if s.getFilenameEnabled && f != "" {
      GetFilenameSelectsEvenOnFailure(s, f, o);
    }
  }

  /** Picking only appends its job. */
  lemma CalcFbMonotone(env: Env, s: WindowState)
    ensures Monotone(s, Step(env, s, CalcFb))
  {
    if s.fbEnabled {
      CalcFbLocksActions(s);
    }
  }

  /** A job's result only warns and re-enables actions. */
  lemma ResultFbMonotone(env: Env, s: WindowState, r: PickResult, p: PlotOutcome)
    ensures Monotone(s, Step(env, s, ResultFb(r, p)))
  {
    if PickingSubmitted(s.jobs) {
      ResultFbReenablesOnlyWhenItCompletes(s, r, p);
    }
  }

  /** No event resets a readiness flag or withdraws a submitted job. */
  lemma StepNeverClearsFlags(env: Env, s: WindowState, e: Event)
    ensures Monotone(s, Step(env, s, e))
  {
    match e
    case LoadNn(f) => LoadNnMonotone(env, s, f);
    case GetFilename(f, o) => GetFilenameMonotone(env, s, f, o);
    case CalcFb => CalcFbMonotone(env, s);
    case ResultFb(r, p) => ResultFbMonotone(env, s, r, p);
    case _ => SignalMonotone(env, s, e);
  }

  /** The other job signals touch neither flag nor the job list. */
  lemma SignalMonotone(env: Env, s: WindowState, e: Event)
    requires e.InitNet? || e.StartFb? || e.MessageFb? || e.ProgressFb? || e.FinishFb?
    ensures Monotone(s, Step(env, s, e))
  {
    assert Step(env, s, e).jobs == s.jobs;
  }

  lemma {:induction false} RunNeverClearsFlags(env: Env, s: WindowState, events: seq<Event>)
    ensures s.sgySelected ==> Run(env, s, events).sgySelected
    ensures s.modelLoaded ==> Run(env, s, events).modelLoaded
    ensures s.jobs <= Run(env, s, events).jobs
    decreases |events|
  {
    if events != [] {
      StepNeverClearsFlags(env, s, events[0]);
      RunNeverClearsFlags(env, Step(env, s, events[0]), events[1..]);
    }
  }

  /** In every reachable window, picking is enabled only when a file is selected and a model accepted. */
  lemma PickingEnabledOnlyWhenBothFlagsSet(env: Env, events: seq<Event>)
    ensures var t := Run(env, Initial(), events);
      (t.fbEnabled || PickingSubmitted(t.jobs)) ==> t.sgySelected && t.modelLoaded
  {
    InitialKeepsInvariant();
    RunKeepsInvariant(env, Initial(), events);
  }

  /** In every reachable window, loading is enabled exactly until a model is accepted. */
  lemma LoadingEnabledUntilModelAccepted(env: Env, events: seq<Event>)
    ensures var t := Run(env, Initial(), events);
      t.loadNnEnabled == !t.modelLoaded
  {
    InitialKeepsInvariant();
    RunKeepsInvariant(env, Initial(), events);
  }

  /**
   * `model_loaded` is set before the InitNet job hands the network over, so a user who
   * opens an SGY file and then loads a valid model can start picking at once: the picking
   * job is submitted with no picker.
   */
  lemma PickingCanBeSubmittedBeforePickerArrives(env: Env, weights: Path, sgyFile: Path)
    requires weights != "" && sgyFile != ""
    requires GetFileState(env.files, env.calcHash, weights, env.ckptHash) == ValidFile
    ensures Run(env, Initial(), [GetFilename(sgyFile, Shown), LoadNn(weights), CalcFb]).jobs
         == [InitNetJob(weights), PickingJob(None, PickTask(Some(sgyFile), TracesPerGather))]
  {
    var s0 := Initial();
    var s1 := Step(env, s0, GetFilename(sgyFile, Shown));
    assert s1 == GetFilenameStep(s0, sgyFile, Shown);
    assert s1.getFilenameEnabled && s1.loadNnEnabled && s1.picker == None && s1.fn == Some(sgyFile);
    var s2 := Step(env, s1, LoadNn(weights));
    assert s2 == LoadNnStep(env, s1, weights);
    assert s2.fbEnabled && s2.jobs == [InitNetJob(weights)] && s2.picker == None && s2.fn == Some(sgyFile);
    var s3 := Step(env, s2, CalcFb);
    assert s3 == CalcFbStep(s2);
    var events := [GetFilename(sgyFile, Shown), LoadNn(weights), CalcFb];
    assert events[1..] == [LoadNn(weights), CalcFb];
    assert events[1..][1..] == [CalcFb];
    assert Run(env, s2, [CalcFb]) == Run(env, s3, []);
  }

  /**
   * When `plot_picks` raises on a successful result, `result_fb` never re-enables opening and
   * `finish_fb` only re-enables picking: after the run, open-SGY stays disabled.
   */
  lemma OpeningStaysDisabledWhenPlotRaises(env: Env, s: WindowState, result: PickResult, error: Exception)
    requires s.fbEnabled
    requires result.success && result.numBatches != 0
    ensures var t := Run(env, s, [CalcFb, ResultFb(result, PlotRaised(error)), FinishFb]);
      !t.getFilenameEnabled && t.fbEnabled
  {
    var s1 := Step(env, s, CalcFb);
    assert s1 == CalcFbStep(s);
    assert PickingJob(s.picker, PickTask(s.fn, TracesPerGather)) in s1.jobs;
    var s2 := Step(env, s1, ResultFb(result, PlotRaised(error)));
    assert s2 == s1;
    var s3 := Step(env, s2, FinishFb);
    assert s3 == FinishFbStep(s2);
    var events := [CalcFb, ResultFb(result, PlotRaised(error)), FinishFb];
    assert events[1..] == [ResultFb(result, PlotRaised(error)), FinishFb];
    assert events[1..][1..] == [FinishFb];
    assert Run(env, s2, [FinishFb]) == Run(env, s3, []);
  }

  // ------------------------------------------------------------- the window

  /** MainWindow: the toolbar state and the handlers that change it, step by step. */
  class MainWindow {
    const readyToProcess: ReadyToProcess
    var buttonLoadNnEnabled: bool
    var buttonGetFilenameEnabled: bool
    var buttonFbEnabled: bool
    /** No handler touches the export action: it stays as `__init__` leaves it. */
    const buttonExportEnabled: bool
    var sgy: Option<Path>
    var fn: Option<Path>
    var picks: Option<Picks>
    var picker: Option<Picker>
    var statusMessage: StatusText
    var statusProgressVisible: bool
    var statusProgressValue: Option<int>
    var graphVisible: bool
    var jobs: seq<Job>
    var warnings: seq<Warning>

    /** The window's fields as a snapshot. */
    function State(): WindowState
      reads this, readyToProcess
    {
      WindowState(
        readyToProcess.sgySelected, readyToProcess.modelLoaded,
        buttonLoadNnEnabled, buttonGetFilenameEnabled, buttonFbEnabled,
        sgy, fn, picks, picker,
        statusMessage, statusProgressVisible, statusProgressValue, graphVisible,
        jobs, warnings)
    }

    constructor()
      ensures fresh(readyToProcess)
      ensures !buttonExportEnabled
      ensures State() == Initial()
    {
      buttonLoadNnEnabled := true;
      buttonGetFilenameEnabled := true;
      buttonFbEnabled := false;
      buttonExportEnabled := false;
      statusProgressVisible := false;
      statusProgressValue := None;
      statusMessage := OpenSgyOrLoadModel;
      graphVisible := false;
      sgy := None;
      fn := None;
      picks := None;
      readyToProcess := new ReadyToProcess();
      picker := None;
      jobs := [];
      warnings := [];
    }

    method ThreadInitNet(weights: Path)
      modifies this
      ensures State() == ThreadInitNetStep(old(State()), weights)
    {
      jobs := jobs + [InitNetJob(weights)];
    }

    method InitNet(p: Picker)
      modifies this
      ensures State() == InitNetStep(old(State()), p)
    {
      picker := Some(p);
    }

    method CalcFb()
      modifies this
      ensures State() == CalcFbStep(old(State()))
    {
      buttonFbEnabled := false;
      buttonGetFilenameEnabled := false;
      var task := PickTask(fn, TracesPerGather);
      jobs := jobs + [PickingJob(picker, task)];
    }

    method StartFb()
      modifies this
      ensures State() == StartFbStep(old(State()))
    {
      statusProgressVisible := true;
    }

    method MessageFb(message: string)
      modifies this
      ensures State() == MessageFbStep(old(State()), message)
    {
      statusMessage := JobMessage(message);
    }

    method FinishFb()
      modifies this
      ensures State() == FinishFbStep(old(State()))
    {
      statusProgressVisible := false;
      buttonFbEnabled := true;
    }

    method ProgressFb(value: int)
      modifies this
      ensures State() == ProgressFbStep(old(State()), value)
    {
      statusProgressValue := Some(value);
    }

    /** `plot` is how `plot_picks` went; it matters only for a successful result. */
    method ResultFb(result: PickResult, plot: PlotOutcome)
      modifies this
      ensures State() == ResultFbStep(old(State()), result, plot)
    {
      if result.numBatches == 0 {
        // the timing printout raises ZeroDivisionError
        return;
      }
      if result.success {
        if plot.PlotRaised? {
          return;
        }
      } else {
        warnings := warnings + [Warning(InternalErrorTitle, result.errorMessage)];
      }
      buttonGetFilenameEnabled := true;
      buttonFbEnabled := true;
    }

    method ShowSgy(outcome: ShowOutcome)
      modifies this
      ensures State() == ShowSgyStep(old(State()), outcome)
    {
      match outcome {
        case Shown =>
          sgy := fn;
          graphVisible := true;
        case ReadFailed(e) =>
          warnings := warnings + [Warning(e.name, e.message)];
        case PlotFailed(e) =>
          sgy := fn;
          warnings := warnings + [Warning(e.name, e.message)];
      }
      buttonGetFilenameEnabled := true;
    }

    method UnlockPickingIfReady()
      modifies this
      ensures State() == UnlockStep(old(State()))
    {
      if readyToProcess.IsReady() {
        buttonFbEnabled := true;
        statusMessage := ClickToPick;
      }
    }

    method LoadNn(env: Env, filename: Path)
      modifies this, readyToProcess
      ensures State() == LoadNnStep(env, old(State()), filename)
    {
      if filename != "" {
        if GetFileState(env.files, env.calcHash, filename, env.ckptHash) == ValidFile {
          ThreadInitNet(filename);
          buttonLoadNnEnabled := false;
          readyToProcess.modelLoaded := true;
          var message := ModelLoaded(openSgyHint := false);
          if !readyToProcess.sgySelected {
            message := ModelLoaded(openSgyHint := true);
          }
          statusMessage := message;
          UnlockPickingIfReady();
        } else {
          warnings := warnings + [ModelLoadingError];
        }
      }
    }

    method GetFilename(filename: Path, outcome: ShowOutcome)
      modifies this, readyToProcess
      ensures State() == GetFilenameStep(old(State()), filename, outcome)
    {
      if filename != "" {
        fn := Some(filename);
        picks := None;
        ShowSgy(outcome);
        readyToProcess.sgySelected := true;
        if !readyToProcess.modelLoaded {
          statusMessage := LoadModelHint;
        }
        UnlockPickingIfReady();
      }
    }
  }
}
