/**
 * The argument checks and image sizing of the seismogram image exporter
 * (first_breaks/desktop/graph.py): `GraphExporter.avoid_memory_bomb`, the part of
 * `GraphExporter.export` that runs before anything is drawn, and the dispatch on the
 * source type in `export_image`. Each raised exception is an `Error` value.
 */
module Graph {
  import opened Common

  /** GraphExporter.MAX_SIDE_SIZE: the largest height or width in pixels. */
  const MaxSideSize: int := 65000

  /** GraphExporter.MAX_NUM_PIXELS: the largest number of pixels in one image. */
  const MaxNumPixels: int := MaxSideSize * 2000

  datatype Side = Height | Width

  /** The exceptions the exporter raises. */
  datatype Error =
    | UnsupportedImageSize(side: Side, size: int)
    | HighMemoryConsumption(numPixels: int)
    | NeedKwargs
    | PicksAndTaskExclusive
    | UnsupportedSource
  {
    /** The Python exception class: the module's own two classes, `ValueError` or `TypeError`. */
    function ClassName(): (r: string)
      ensures r == "UnsupportedImageSize" <==> this.UnsupportedImageSize?
      ensures r == "HighMemoryConsumption" <==> this.HighMemoryConsumption?
      ensures r == "ValueError" <==> this.NeedKwargs? || this.PicksAndTaskExclusive?
      ensures r == "TypeError" <==> this.UnsupportedSource?
    {
      match this
      case UnsupportedImageSize(_, _) => "UnsupportedImageSize"
      case HighMemoryConsumption(_) => "HighMemoryConsumption"
      case NeedKwargs => "ValueError"
      case PicksAndTaskExclusive => "ValueError"
      case UnsupportedSource => "TypeError"
    }

    /**
     * The exception's message, with the numbers written in decimal as the f-strings do
     * (MessageNumbersReadBack states what can be read back from it).
     */
    function Message(): string
    {
      match this
      case UnsupportedImageSize(side, size) =>
        SizeLeadIn(side) + Decimal(size) + SizeTail(side)
      case HighMemoryConsumption(n) =>
        PixelsLeadIn + Decimal(n) + PixelsTail
      case NeedKwargs =>
        "Please, use named arguments instead of ordered for visualizations parameters. "
        + "E.g. instead of `export(sgy, 'gather.png', 1.5)` use `export(sgy, 'gather.png', clip=1.5)`"
      case PicksAndTaskExclusive =>
        "'picks_ms' and 'task' are mutually exclusive. Use only one of them or none"
      case UnsupportedSource =>
        "Unsupported type for 'source'"
    }
  }

  /** A size or pixel count can be read back from the digits that follow its message's fixed lead-in. */
  lemma MessageNumbersReadBack(e: Error)
    ensures e.UnsupportedImageSize? && e.size >= 0 ==> ReadsBackAfter(e.Message(), SizeLeadIn(e.side), e.size)
    ensures e.HighMemoryConsumption? && e.numPixels >= 0 ==> ReadsBackAfter(e.Message(), PixelsLeadIn, e.numPixels)
  {
    match e
    case UnsupportedImageSize(side, size) => NumberReadsBack(SizeLeadIn(side), size, SizeTail(side));
    case HighMemoryConsumption(n) => NumberReadsBack(PixelsLeadIn, n, PixelsTail);
    case _ =>
  }

  function SideName(side: Side): string
  {
    match side
    case Height => "height"
    case Width => "width"
  }

  /** The text before the number in the too-tall and too-wide messages. */
  function SizeLeadIn(side: Side): string
  {
    "It is not possible to render a picture of the given " + SideName(side) + " = "
  }

  /** The text after the number in the too-tall and too-wide messages. */
  function SizeTail(side: Side): (r: string)
    ensures r != [] && r[0] == '.'
  {
    ". Max " + SideName(side) + " = " + Decimal(MaxSideSize) + ". Decrease rendering parameters."
  }

  /** The text after the number in the too-many-pixels message. */
  const PixelsTail: string := " pixels)" + " for this SGY file. Decrease rendering parameters."

  /** The text before the number in the too-many-pixels message. */
  const PixelsLeadIn: string := "The size of the picture will turn out to be too large ("

  // ------------------------------------------------------------ decimal numbers

  predicate IsDigit(c: char)
  {
    '0' <= c <= '9'
  }

  /** The decimal digits of `n`, most significant first, without leading zeros. */
  function Digits(n: nat): (r: string)
    ensures 1 <= |r|
    ensures forall i :: 0 <= i < |r| ==> IsDigit(r[i])
    ensures n < 10 <==> |r| == 1
    decreases n
  {
    if n < 10 then ["0123456789"[n]] else Digits(n / 10) + ["0123456789"[n % 10]]
  }

  /** The number a string of decimal digits denotes. */
  function DecimalValue(s: string): nat
    decreases |s|
  {
    if s == [] then 0
    else DecimalValue(s[..|s| - 1]) * 10 + (if IsDigit(s[|s| - 1]) then s[|s| - 1] as int - '0' as int else 0)
  }

  /** The longest prefix of `s` made of decimal digits. */
  function LeadingDigits(s: string): string
    decreases |s|
  {
    if s == [] || !IsDigit(s[0]) then [] else [s[0]] + LeadingDigits(s[1..])
  }

  /** The digits of `n` denote `n`. */
  lemma {:induction false} DigitsValue(n: nat)
    ensures DecimalValue(Digits(n)) == n
    decreases n
  {
    var d := Digits(n);
    assert d[..|d| - 1] == if n < 10 then [] else Digits(n / 10);
    if n >= 10 {
      DigitsValue(n / 10);
    }
  }

  /** A run of digits followed by a non-digit (or nothing) is exactly the leading digits. */
  lemma {:induction false} LeadingDigitsOfDigitRun(d: string, t: string)
    requires forall i :: 0 <= i < |d| ==> IsDigit(d[i])
    requires t == [] || !IsDigit(t[0])
    ensures LeadingDigits(d + t) == d
    decreases |d|
  {
    if d == [] {
      assert d + t == t;
    } else {
      assert (d + t)[1..] == d[1..] + t;
      LeadingDigitsOfDigitRun(d[1..], t);
    }
  }

  /** Python's `str` of an integer. */
  function Decimal(n: int): (r: string)
    ensures n >= 0 ==> r == Digits(n) && DecimalValue(r) == n
    ensures n < 0 ==> 2 <= |r| && r[0] == '-' && DecimalValue(r[1..]) == -n
  {
    if n < 0 then
      DigitsValue(-n);
      assert ("-" + Digits(-n))[1..] == Digits(-n);
      "-" + Digits(-n)
    else
      DigitsValue(n);
      Digits(n)
  }

  /** `m` starts with `lead`, and the digits right after it denote `n`. */
  predicate ReadsBackAfter(m: string, lead: string, n: int)
  {
    |lead| <= |m| && m[..|lead|] == lead && DecimalValue(LeadingDigits(m[|lead|..])) == n
  }

  /** A non-negative number written between a lead-in and a tail that starts with a non-digit reads back. */
  lemma NumberReadsBack(lead: string, n: int, tail: string)
    requires tail == [] || !IsDigit(tail[0])
    ensures n >= 0 ==> ReadsBackAfter(lead + Decimal(n) + tail, lead, n)
  {
    if n >= 0 {
      var m := lead + Decimal(n) + tail;
      assert m[..|lead|] == lead;
      assert m[|lead|..] == Decimal(n) + tail;
      LeadingDigitsOfDigitRun(Decimal(n), tail);
    }
  }

  // ------------------------------------------------------------ avoid_memory_bomb

  /**
   * GraphExporter.avoid_memory_bomb: the height is checked first, then the width, then the
   * number of pixels; every bound is inclusive.
   */
  function AvoidMemoryBomb(heightImage: int, widthImage: int): (r: Outcome<Error>)
    ensures r.Pass? <==> heightImage <= MaxSideSize && widthImage <= MaxSideSize
                         && heightImage * widthImage <= MaxNumPixels
    ensures heightImage > MaxSideSize ==> r == Fail(UnsupportedImageSize(Height, heightImage))
    ensures heightImage <= MaxSideSize < widthImage ==> r == Fail(UnsupportedImageSize(Width, widthImage))
    ensures heightImage <= MaxSideSize && widthImage <= MaxSideSize && heightImage * widthImage > MaxNumPixels
            ==> r == Fail(HighMemoryConsumption(heightImage * widthImage))
  {
    if heightImage > MaxSideSize then Fail(UnsupportedImageSize(Height, heightImage))
    else if widthImage > MaxSideSize then Fail(UnsupportedImageSize(Width, widthImage))
    else
      var numPixels := heightImage * widthImage;
      if numPixels > MaxNumPixels then Fail(HighMemoryConsumption(numPixels)) else Pass
  }

  /** The bounds are inclusive: the largest sides and the largest pixel count pass; one more pixel does not. */
  lemma AvoidMemoryBombBoundaries()
    ensures AvoidMemoryBomb(MaxSideSize, 2000).Pass? && AvoidMemoryBomb(2000, MaxSideSize).Pass?
    ensures AvoidMemoryBomb(MaxSideSize, 2001) == Fail(HighMemoryConsumption(MaxNumPixels + MaxSideSize))
    ensures AvoidMemoryBomb(MaxSideSize + 1, MaxSideSize + 1) == Fail(UnsupportedImageSize(Height, MaxSideSize + 1))
  {
  }

  lemma MulMonotone(a: int, b: int, c: int, d: int)
    requires 0 <= a <= b && 0 <= c <= d
    ensures a * c <= b * d
  {
  }

  /** Shrinking an accepted image, down to zero on either side, keeps it accepted. */
  lemma AcceptedSizesDownwardClosed(height: int, width: int, smallerHeight: int, smallerWidth: int)
    requires AvoidMemoryBomb(height, width).Pass?
    requires 0 <= smallerHeight <= height && 0 <= smallerWidth <= width
    ensures AvoidMemoryBomb(smallerHeight, smallerWidth).Pass?
  {
    MulMonotone(smallerHeight, height, smallerWidth, width);
  }

  // ----------------------------------------------------------------------- export

  /** An SGY gather, as far as exporting needs it: its number of traces. */
  datatype Sgy = Sgy(numTraces: nat)

  /** A picking task: its gather, its picks (None until picked) and its processing-region parameters. */
  datatype Task = Task(sgy: Sgy, picksInMs: Option<seq<real>>, maximumTimeParsed: real, tracesPerGatherParsed: int)

  /** The processing region drawn over the gather. */
  datatype Region = Region(maximumTime: real, tracesPerGather: int)

  /** The keyword parameters of `export` that decide what is checked and drawn. */
  datatype ExportOptions = ExportOptions(
    picksMs: Option<seq<real>>,
    showProcessingRegion: bool,
    tracesWindow: Option<(real, real)>,
    height: int,
    width: Option<int>,
    widthPerTrace: int,
    headersTotalPixels: int)

  /** The defaults of `export` and `export_image`. */
  function DefaultOptions(): ExportOptions
  {
    ExportOptions(picksMs := None, showProcessingRegion := true, tracesWindow := None,
                  height := 500, width := None, widthPerTrace := 20, headersTotalPixels := 50)
  }

  /** What `export` goes on to draw once its checks pass: gather, image size, picks and region. */
  datatype ExportPlan = ExportPlan(sgy: Sgy, height: int, width: int, picks: Option<seq<real>>, region: Option<Region>)

  /** Python's `int()` of a number: truncation toward zero. */
  function TruncateToInt(x: real): (r: int)
    ensures 0.0 <= x ==> 0 <= r && r as real <= x < r as real + 1.0
    ensures x < 0.0 ==> r <= 0 && r as real - 1.0 < x <= r as real
  {
    if x >= 0.0 then x.Floor else -((-x).Floor)
  }

  /** The pixels the traces of a traces window take before truncation: per-trace pixels times the window's span. */
  function WindowSpan(widthPerTrace: int, window: (real, real)): real
  {
    widthPerTrace as real * (window.1 - window.0)
  }

  /** The image width: the explicit one, else per-trace pixels times the traces shown plus the headers. */
  function ExportWidth(sgy: Sgy, o: ExportOptions): (r: int)
    ensures o.width.Some? ==> r == o.width.value
    ensures o.width.None? && o.tracesWindow.None? ==> r == o.widthPerTrace * sgy.numTraces + o.headersTotalPixels
    ensures o.width.None? && o.tracesWindow.Some? ==>
      var span := WindowSpan(o.widthPerTrace, o.tracesWindow.value);
      var traces := r - o.headersTotalPixels;
      && traces == TruncateToInt(span)
      && (0.0 <= span ==> 0 <= traces && traces as real <= span < traces as real + 1.0)
      && (span < 0.0 ==> traces <= 0 && traces as real - 1.0 < span <= traces as real)
  {
    match o.width
    case Some(w) => w
    case None =>
      match o.tracesWindow
      case None => o.widthPerTrace * sgy.numTraces + o.headersTotalPixels
      case Some(window) =>
        TruncateToInt(WindowSpan(o.widthPerTrace, window)) + o.headersTotalPixels
  }

  /** The picks `export` plots: the task's, else `picks_ms` when it is non-empty, else none. */
  function PicksToPlot(task: Option<Task>, picksMs: Option<seq<real>>): (r: Option<seq<real>>)
    ensures task.Some? ==> r == task.value.picksInMs
    ensures task.None? ==> (r.Some? <==> picksMs.Some? && |picksMs.value| > 0)
    ensures task.None? && r.Some? ==> r == picksMs
  {
    if task.Some? then task.value.picksInMs
    else if picksMs.Some? && |picksMs.value| > 0 then picksMs
    else None
  }

  /**
   * GraphExporter.export up to the drawing: extra positional arguments, then `picks_ms`
   * together with `task`, then the size check on the final height and width.
   */
  function Export(sgy: Sgy, numExtraArgs: nat, task: Option<Task>, o: ExportOptions): (r: Result<ExportPlan, Error>)
    ensures numExtraArgs > 0 ==> r == Failure(NeedKwargs)
    ensures numExtraArgs == 0 && o.picksMs.Some? && task.Some? ==> r == Failure(PicksAndTaskExclusive)
    ensures r.Success? <==> numExtraArgs == 0 && (o.picksMs.None? || task.None?)
                            && AvoidMemoryBomb(o.height, ExportWidth(sgy, o)).Pass?
    ensures numExtraArgs == 0 && (o.picksMs.None? || task.None?) && AvoidMemoryBomb(o.height, ExportWidth(sgy, o)).Fail?
            ==> r == Failure(AvoidMemoryBomb(o.height, ExportWidth(sgy, o)).error)
    ensures r.Success? ==> r.value.sgy == sgy && r.value.height == o.height
    ensures r.Success? ==> r.value.width == ExportWidth(sgy, o)
    ensures r.Success? && o.width.Some? ==> r.value.width == o.width.value
    ensures r.Success? && o.width.None? && o.tracesWindow.None?
            ==> r.value.width == o.widthPerTrace * sgy.numTraces + o.headersTotalPixels
    ensures r.Success? ==> r.value.picks == PicksToPlot(task, o.picksMs)
    ensures r.Success? ==> (r.value.region.Some? <==> task.Some? && o.showProcessingRegion)
    ensures r.Success? && r.value.region.Some?
            ==> r.value.region.value == Region(task.value.maximumTimeParsed, task.value.tracesPerGatherParsed)
  {
    if numExtraArgs > 0 then Failure(NeedKwargs)
    else if o.picksMs.Some? && task.Some? then Failure(PicksAndTaskExclusive)
    else
      var width := ExportWidth(sgy, o);
      match AvoidMemoryBomb(o.height, width)
      case Fail(e) => Failure(e)
      case Pass =>
        var region := if task.Some? && o.showProcessingRegion
                      then Some(Region(task.value.maximumTimeParsed, task.value.tracesPerGatherParsed))
                      else None;
        Success(ExportPlan(sgy, o.height, width, PicksToPlot(task, o.picksMs), region))
  }

  /** With every default, a gather can be exported exactly when it has at most 3247 traces. */
  lemma DefaultExportFitsUpTo3247Traces(sgy: Sgy)
    ensures Export(sgy, 0, None, DefaultOptions()).Success? <==> sgy.numTraces <= 3247
  {
    var width := ExportWidth(sgy, DefaultOptions());
    assert width == 20 * sgy.numTraces + 50;
    if sgy.numTraces <= 3247 {
      assert width <= MaxSideSize;
      assert 500 * width <= MaxNumPixels;
    }
  }

  /** An empty `picks_ms` plots nothing, but still clashes with a task. */
  lemma EmptyPicksPlotNothingButClashWithTask(sgy: Sgy, task: Task, o: ExportOptions)
    requires o.picksMs == Some([])
    ensures Export(sgy, 0, Some(task), o) == Failure(PicksAndTaskExclusive)
    ensures Export(sgy, 0, None, o).Success? ==> Export(sgy, 0, None, o).value.picks == None
  {
  }

  // ----------------------------------------------------------------- export_image

  /** What `export_image` accepts as its source, by Python type. */
  datatype Source =
    | StrSource(text: string)
    | PathSource(path: string)
    | BytesSource(data: seq<bv8>)
    | ArraySource(traces: seq<seq<real>>)
    | SgySource(sgy: Sgy)
    | TaskSource(task: Task)
    | OtherSource

  /** A call of the SGY constructor: on a file-like source, or on an array with a sampling interval. */
  datatype SgyRequest = ReadSgy(source: Source) | WrapArray(traces: seq<seq<real>>, dtMcs: real)

  /** The gather and task `export_image` passes on to `export`. */
  datatype Resolved = Resolved(sgy: Sgy, task: Option<Task>)

  /** The default sampling interval of `export_image`, in microseconds. */
  const DefaultDtMcs: real := 1000.0

  /**
   * The checks and the `isinstance` chain at the head of `export_image`; `openSgy` is the SGY
   * constructor, which lives outside this model.
   */
  function ResolveSource(source: Source, numExtraArgs: nat, dtMcs: real, openSgy: SgyRequest -> Sgy): (r: Result<Resolved, Error>)
    ensures numExtraArgs > 0 ==> r == Failure(NeedKwargs)
    ensures numExtraArgs == 0 ==> (r.Failure? <==> source.OtherSource?)
    ensures numExtraArgs == 0 && source.OtherSource? ==> r == Failure(UnsupportedSource)
    ensures r.Success? ==> (r.value.task.Some? <==> source.TaskSource?)
    ensures r.Success? && (source.StrSource? || source.PathSource? || source.BytesSource?)
            ==> r.value == Resolved(openSgy(ReadSgy(source)), None)
    ensures r.Success? && source.ArraySource? ==> r.value == Resolved(openSgy(WrapArray(source.traces, dtMcs)), None)
    ensures r.Success? && source.SgySource? ==> r.value == Resolved(source.sgy, None)
    ensures r.Success? && source.TaskSource? ==> r.value == Resolved(source.task.sgy, Some(source.task))
  {
    if numExtraArgs > 0 then Failure(NeedKwargs)
    else
      match source
      case StrSource(_) => Success(Resolved(openSgy(ReadSgy(source)), None))
      case PathSource(_) => Success(Resolved(openSgy(ReadSgy(source)), None))
      case BytesSource(_) => Success(Resolved(openSgy(ReadSgy(source)), None))
      case ArraySource(traces) => Success(Resolved(openSgy(WrapArray(traces, dtMcs)), None))
      case SgySource(sgy) => Success(Resolved(sgy, None))
      case TaskSource(task) => Success(Resolved(task.sgy, Some(task)))
      case OtherSource => Failure(UnsupportedSource)
  }

  /** export_image: resolve the source, then export it with no extra positional arguments. */
  function ExportImage(source: Source, numExtraArgs: nat, dtMcs: real, openSgy: SgyRequest -> Sgy, o: ExportOptions)
    : (r: Result<ExportPlan, Error>)
    ensures ResolveSource(source, numExtraArgs, dtMcs, openSgy).Failure? ==>
      r == Failure(ResolveSource(source, numExtraArgs, dtMcs, openSgy).error)
    ensures ResolveSource(source, numExtraArgs, dtMcs, openSgy).Success? ==>
      var resolved := ResolveSource(source, numExtraArgs, dtMcs, openSgy).value;
      r == Export(resolved.sgy, 0, resolved.task, o)
    ensures r.Success? ==> numExtraArgs == 0 && !source.OtherSource?
  {
    match ResolveSource(source, numExtraArgs, dtMcs, openSgy)
    case Failure(e) => Failure(e)
    case Success(resolved) => Export(resolved.sgy, 0, resolved.task, o)
  }

  /** Extra positional arguments are refused before the source's type is looked at. */
  lemma ExportImageChecksArgumentsFirst(source: Source, numExtraArgs: nat, dtMcs: real, openSgy: SgyRequest -> Sgy, o: ExportOptions)
    requires numExtraArgs > 0
    ensures ExportImage(source, numExtraArgs, dtMcs, openSgy, o) == Failure(NeedKwargs)
  {
  }

  /** A task source carries its own picks, so `export_image` with a task and `picks_ms` fails. */
  lemma ExportImageTaskRejectsPicks(task: Task, dtMcs: real, openSgy: SgyRequest -> Sgy, o: ExportOptions)
    requires o.picksMs.Some?
    ensures ExportImage(TaskSource(task), 0, dtMcs, openSgy, o) == Failure(PicksAndTaskExclusive)
  {
  }

  /** Only a task source draws the processing region and plots the task's picks. */
  lemma ExportImageRegionOnlyForTasks(source: Source, dtMcs: real, openSgy: SgyRequest -> Sgy, o: ExportOptions)
    requires ExportImage(source, 0, dtMcs, openSgy, o).Success?
    ensures var plan := ExportImage(source, 0, dtMcs, openSgy, o).value;
      && (plan.region.Some? <==> source.TaskSource? && o.showProcessingRegion)
      && (source.TaskSource? ==> plan.picks == source.task.picksInMs && plan.sgy == source.task.sgy)
  {
  }
}
