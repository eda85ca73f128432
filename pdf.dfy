/** The PDF rasteriser's policy around PDF.js: which worker script is
    configured, which scale a page is rendered at, and how failures are
    turned into messages for the user. PDF.js itself is represented by the
    outcomes it produces. */
module Pdf {
  import opened Common
  import Scaling

  type Positive = r: real | r > 0.0 witness 1.0

  const LocalWorker := "/pdfjs/pdf.worker.min.js"

  /** The worker scripts in the order they are tried: the local copy, then
      three CDNs for the library's version. */
  function WorkerSources(version: string): (r: seq<string>)
    ensures |r| == 4 && r[0] == LocalWorker
  {
    [LocalWorker,
     "https://cdnjs.cloudflare.com/ajax/libs/pdf.js/" + version + "/pdf.worker.min.js",
     "https://unpkg.com/pdfjs-dist@" + version + "/build/pdf.worker.min.js",
     "https://cdn.jsdelivr.net/npm/pdfjs-dist@" + version + "/build/pdf.worker.min.js"]
  }

  /** How a `HEAD` request for a worker script settles. */
  datatype Probe = ResponseOk | ResponseNotOk | FetchThrew

  /** The first source whose probe answers ok, or the first source when
      none does. */
  function SelectWorker(sources: seq<string>, probe: string -> Probe): (r: string)
    requires sources != []
    ensures r in sources
    ensures probe(r) == ResponseOk || r == sources[0]
    ensures forall k :: 0 <= k < |sources| && probe(sources[k]) == ResponseOk ==> FirstOk(sources, probe) <= k
    ensures FirstOk(sources, probe) < |sources| ==> r == sources[FirstOk(sources, probe)]
    ensures FirstOk(sources, probe) == |sources| ==> r == sources[0]
  {
    var i := FirstOk(sources, probe);
    if i < |sources| then sources[i] else sources[0]
  }

  /** The index of the first source whose probe answers ok, `|sources|` when
      there is none. */
  function FirstOk(sources: seq<string>, probe: string -> Probe): (i: nat)
    ensures i <= |sources|
    ensures i < |sources| ==> probe(sources[i]) == ResponseOk
    ensures forall k :: 0 <= k < i ==> probe(sources[k]) != ResponseOk
  {
    if sources == [] then 0
    else if probe(sources[0]) == ResponseOk then 0
    else 1 + FirstOk(sources[1..], probe)
  }

  /** The library's module-level state: `GlobalWorkerOptions.workerSrc`
      (`""` when unset) and whether the setup promise exists. */
  class PdfJsGlobals {
    var workerSrc: string
    var setupStarted: bool

    constructor()
      ensures workerSrc == "" && !setupStarted
    {
      workerSrc := "";
      setupStarted := false;
    }

    /** `setupWorker`: nothing when a worker is already configured; otherwise
        the sources are probed in order and the first that answers ok is
        kept, the local copy when none does. Returns how many probes were
        made. */
    method SetupWorker(version: string, probe: string -> Probe) returns (probes: nat)
      modifies this
      ensures old(workerSrc) != "" ==> workerSrc == old(workerSrc) && probes == 0
      ensures old(workerSrc) == "" ==> workerSrc == SelectWorker(WorkerSources(version), probe)
      ensures old(workerSrc) == "" ==> probes == if FirstOk(WorkerSources(version), probe) < 4 then FirstOk(WorkerSources(version), probe) + 1 else 4
      ensures setupStarted == old(setupStarted)
    {
      if workerSrc != "" {
        return 0;
      }
      var sources := WorkerSources(version);
      probes := 0;
      var i := 0;
      while i < |sources|
        invariant 0 <= i <= |sources| && probes == i
        invariant forall k :: 0 <= k < i ==> probe(sources[k]) != ResponseOk
        invariant workerSrc == "" && setupStarted == old(setupStarted)
      {
        var response := probe(sources[i]);
        probes := probes + 1;
        if response == ResponseOk {
          workerSrc := sources[i];
          return;
        }
        // a probe that throws is skipped like one that answers not ok
        i := i + 1;
      }
      workerSrc := sources[0];
    }

    /** Loading the module in a browser: the local worker is configured at
        once, then `setupWorker` starts. */
    method LoadModule(hasWindow: bool, version: string, probe: string -> Probe) returns (probes: nat)
      requires workerSrc == "" && !setupStarted
      modifies this
      ensures hasWindow ==> workerSrc == LocalWorker && setupStarted
      ensures !hasWindow ==> workerSrc == "" && !setupStarted
      ensures probes == 0
    {
      probes := 0;
      if hasWindow {
        workerSrc := LocalWorker;
        setupStarted := true;
        probes := SetupWorker(version, probe);
      }
    }

    /** The check before loading a document: an unset worker gets the local
        copy. */
    method EnsureWorker()
      modifies this
      ensures old(workerSrc) != "" ==> workerSrc == old(workerSrc)
      ensures old(workerSrc) == "" ==> workerSrc == LocalWorker
      ensures workerSrc != "" && setupStarted == old(setupStarted)
    {
      if workerSrc == "" {
        workerSrc := LocalWorker;
      }
    }
  }

  /** In a browser the probing loop is never reached: the module has set
      the worker before `setupWorker` looks, and it stays the local copy. */
  method BrowserNeverProbes(version: string, probe: string -> Probe) returns (globals: PdfJsGlobals, probes: nat)
    ensures probes == 0 && globals.workerSrc == LocalWorker
  {
    globals := new PdfJsGlobals();
    probes := globals.LoadModule(true, version, probe);
  }

  /** A number is truthy when it is present and not zero. */
  predicate NumberTruthy(n: Option<real>) {
    n.Some? && n.value != 0.0
  }

  const MaxWidth: real := 800.0
  const MaxHeight: real := 600.0
  const MaxScale: real := 2.0

  /** The render scale for a page whose unscaled viewport is
      `viewWidth` by `viewHeight`. */
  function ChooseScale(viewWidth: Positive, viewHeight: Positive, targetWidth: Option<real>, targetHeight: Option<real>): (r: real)
    ensures NumberTruthy(targetWidth) && NumberTruthy(targetHeight) ==>
      r == Min(targetWidth.value / viewWidth, targetHeight.value / viewHeight)
    ensures !(NumberTruthy(targetWidth) && NumberTruthy(targetHeight)) ==>
      r == Min(Min(MaxWidth / viewWidth, MaxHeight / viewHeight), MaxScale)
  {
    if NumberTruthy(targetWidth) && NumberTruthy(targetHeight) then
      Min(targetWidth.value / viewWidth, targetHeight.value / viewHeight)
    else
      Min(Min(MaxWidth / viewWidth, MaxHeight / viewHeight), MaxScale)
  }

  /** With both targets the scale is the editor's fit-to-box scale. */
  lemma TargetScaleIsFitScale(viewWidth: Positive, viewHeight: Positive, targetWidth: real, targetHeight: real)
    requires targetWidth != 0.0 && targetHeight != 0.0
    ensures ChooseScale(viewWidth, viewHeight, Some(targetWidth), Some(targetHeight)) ==
            Scaling.CalculateScaling(viewWidth, viewHeight, targetWidth, targetHeight).scale
  {
  }

  /** Without both targets the scale is positive, at most 2, and the scaled
      page fits in 800 by 600. */
  lemma DefaultScaleBounds(viewWidth: Positive, viewHeight: Positive, targetWidth: Option<real>, targetHeight: Option<real>)
    requires !(NumberTruthy(targetWidth) && NumberTruthy(targetHeight))
    ensures var s := ChooseScale(viewWidth, viewHeight, targetWidth, targetHeight);
            0.0 < s <= MaxScale && viewWidth * s <= MaxWidth && viewHeight * s <= MaxHeight
  {
    var s := ChooseScale(viewWidth, viewHeight, targetWidth, targetHeight);
    assert s <= MaxWidth / viewWidth && s <= MaxHeight / viewHeight;
    Scaling.MulMonotone(viewWidth, s, MaxWidth / viewWidth);
    Scaling.MulMonotone(viewHeight, s, MaxHeight / viewHeight);
  }

  /** What was thrown: an `Error` with its message, or anything else. */
  datatype Thrown = ErrorWithMessage(message: string) | NonError

  const WorkerMessage := "PDF worker failed to load. Please try refreshing the page."
  const InvalidPdfMessage := "Invalid PDF file. Please ensure the file is a valid PDF."
  const PasswordMessage := "PDF is password protected. Please use an unprotected PDF."
  const FailurePrefix := "PDF rendering failed: "
  const GenericMessage := "Failed to render PDF. Please try again."
  const NoContextMessage := "Could not get canvas context"

  /** The message the rethrown error carries, chosen by the first of
      "worker", "Invalid PDF" and "password" the original message contains. */
  function ErrorMessage(t: Thrown): (r: string)
    ensures t.NonError? ==> r == GenericMessage
    ensures t.ErrorWithMessage? && Includes(t.message, "worker") ==> r == WorkerMessage
    ensures t.ErrorWithMessage? && !Includes(t.message, "worker") && Includes(t.message, "Invalid PDF") ==> r == InvalidPdfMessage
    ensures (t.ErrorWithMessage? && !Includes(t.message, "worker") && !Includes(t.message, "Invalid PDF") &&
             Includes(t.message, "password")) ==> r == PasswordMessage
    ensures (t.ErrorWithMessage? && !Includes(t.message, "worker") && !Includes(t.message, "Invalid PDF") &&
             !Includes(t.message, "password")) ==> r == FailurePrefix + t.message
  {
    match t
    case NonError => GenericMessage
    case ErrorWithMessage(m) =>
      if Includes(m, "worker") then WorkerMessage
      else if Includes(m, "Invalid PDF") then InvalidPdfMessage
      else if Includes(m, "password") then PasswordMessage
      else FailurePrefix + m
  }

  /** A message naming both "worker" and "password" is reported as a worker
      failure: the checks run in order. */
  lemma WorkerCheckedFirst(m: string)
    requires Includes(m, "worker") && Includes(m, "password")
    ensures ErrorMessage(ErrorWithMessage(m)) == WorkerMessage
  {
  }

  /** Every message the rasteriser rethrows is non-empty. */
  lemma MessagesNonEmpty(t: Thrown)
    ensures ErrorMessage(t) != ""
  {
  }

  /** The missing-context message names none of the recognised failures,
      so it is reported with the generic prefix. */
  lemma NoContextMessageMapped()
    ensures ErrorMessage(ErrorWithMessage(NoContextMessage)) == FailurePrefix + NoContextMessage
  {
    var m := NoContextMessage;
    assert forall i :: 0 <= i < |m| ==> m[i] != 'w' && m[i] != 'I' && m[i] != 'p';
    FirstCharAbsent(NoContextMessage, "worker");
    FirstCharAbsent(NoContextMessage, "Invalid PDF");
    FirstCharAbsent(NoContextMessage, "password");
  }

  datatype PageInfo = PageInfo(width: real, height: real, scale: real)

  /** How loading the document and its page settles: the page's unscaled
      viewport, or what PDF.js threw. */
  datatype PageLoad = PageLoaded(viewWidth: Positive, viewHeight: Positive) | LoadThrew(thrown: Thrown)

  /** The outcome of `renderPDFToCanvas` once the worker is configured: the
      page info, or the mapped message. A missing context throws inside the
      same `try`, so its message is mapped too. */
  function RenderOutcome(load: PageLoad, targetWidth: Option<real>, targetHeight: Option<real>,
                         contextAvailable: bool, renderFailure: Option<Thrown>): (r: Result<PageInfo>)
    ensures load.LoadThrew? ==> r == Err(ErrorMessage(load.thrown))
    ensures load.PageLoaded? && !contextAvailable ==> r == Err(FailurePrefix + NoContextMessage)
    ensures load.PageLoaded? && contextAvailable && renderFailure.Some? ==> r == Err(ErrorMessage(renderFailure.value))
    ensures r.Ok? <==> load.PageLoaded? && contextAvailable && renderFailure.None?
    ensures r.Ok? ==> (var s := ChooseScale(load.viewWidth, load.viewHeight, targetWidth, targetHeight);
                       r.value == PageInfo(load.viewWidth * s, load.viewHeight * s, s))
  {
    match load
    case LoadThrew(t) => Err(ErrorMessage(t))
    case PageLoaded(vw, vh) =>
      var scale := ChooseScale(vw, vh, targetWidth, targetHeight);
      if !contextAvailable then
        NoContextMessageMapped();
        Err(ErrorMessage(ErrorWithMessage(NoContextMessage)))
      else if renderFailure.Some? then Err(ErrorMessage(renderFailure.value))
      else Ok(PageInfo(vw * scale, vh * scale, scale))
  }

  /** `renderPDFToCanvas`: the worker is made sure of, then the page is
      rendered. */
  method RenderPdfToCanvas(globals: PdfJsGlobals, load: PageLoad, targetWidth: Option<real>, targetHeight: Option<real>,
                           contextAvailable: bool, renderFailure: Option<Thrown>) returns (r: Result<PageInfo>)
    modifies globals
    ensures globals.workerSrc == if old(globals.workerSrc) == "" then LocalWorker else old(globals.workerSrc)
    ensures r == RenderOutcome(load, targetWidth, targetHeight, contextAvailable, renderFailure)
  {
    globals.EnsureWorker();
    r := RenderOutcome(load, targetWidth, targetHeight, contextAvailable, renderFailure);
  }

  /** A page rendered with two positive targets fits the target box and
      touches it on one side. */
  lemma RenderedPageFitsTargets(vw: Positive, vh: Positive, tw: Positive, th: Positive)
    ensures var r := RenderOutcome(PageLoaded(vw, vh), Some(tw as real), Some(th as real), true, None);
            r.Ok? && r.value.width <= tw && r.value.height <= th && (r.value.width == tw || r.value.height == th)
  {
    Scaling.FitsAndTouches(vw, vh, tw, th);
  }

  /** `getPDFPageCount`: the document's page count, or 1 when loading it
      fails. */
  function PageCount(numPages: Option<nat>): (r: nat)
    ensures numPages.None? ==> r == 1
    ensures numPages.Some? ==> r == numPages.value
  {
    if numPages.Some? then numPages.value else 1
  }
}
