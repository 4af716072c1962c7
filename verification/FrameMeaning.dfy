/** What each of the daemon's frames is worth to a browser, in the translation of a whole stream
    (src/service/arduino/grpc/compile.rs, upload.rs and platform.rs). */
module FrameMeaning {
  import opened Protocol
  import opened Frames
  import opened Pumps

  /** The events that come from `items[k]`, cut out of those of the whole stream. */
  function EventsOf(items: seq<Item>, k: nat): seq<Event>
    requires k < |items| && EventAt(items, k) <= EventAt(items, k + 1) <= |AllEvents(items)|
  {
    AllEvents(items)[EventAt(items, k)..EventAt(items, k + 1)]
  }

  lemma ItemStands(items: seq<Item>, k: nat)
    requires k < |items|
    ensures EventAt(items, k) <= EventAt(items, k + 1) <= |AllEvents(items)|
    ensures EventsOf(items, k) == AsSeq(One(items[k], PhaseIn(items, 0, k, "")).0)
  {
    EventsSplit(items, 0, k, |items|, "");
    EventsSplit(items, 0, k + 1, |items|, "");
    EventsFront(items, k, PhaseIn(items, 0, k, ""));
  }

  function Compiling(frame: CompileFrame): Item {
    Message(FromCompile(frame))
  }

  function Uploading(frame: UploadFrame): Item {
    Message(FromUpload(frame))
  }

  function Installing(frame: InstallFrame): Item {
    Message(FromInstall(frame))
  }

  function Downloading(download: Download): Item {
    Installing(DownloadProgress(Some(download)))
  }

  /** The frame says nothing that is passed on. */
  predicate IsMute(item: Item) {
    || item == Compiling(NoCompileMessage) || item == Uploading(NoUploadMessage) || item == Installing(NoInstallMessage)
    || item == Installing(DownloadProgress(None)) || item == Downloading(End(true, ""))
    || (IsUpdate(item) && item.frame.install.download.value.totalSize <= 0)
  }

  /** The frame is output to be shown as it is: a tool's text, or a finished download's message on a line of its own. */
  predicate IsOutput(item: Item, text: string) {
    match item
    case Message(FromCompile(CompileOutput(output))) => text == output
    case Message(FromUpload(UploadOutput(output))) => text == output
    case Message(FromInstall(DownloadProgress(Some(End(true, message))))) => message != "" && text == message + ['\n']
    case _ => false
  }

  /** The frame reports how far a stage has got; a stage without a name goes by its message. */
  predicate IsProgress(item: Item, name: string, message: string, percent: real) {
    item == Compiling(CompileProgress(name, message, percent)) || item == Installing(TaskProgress(name, message, percent))
  }

  /** The frame reports success, with what the browser is to be handed. */
  predicate IsSuccess(item: Item, payload: string) {
    match item
    case Message(FromCompile(CompileResult(_, Some(artifact)))) => payload == artifact
    case Message(FromUpload(UploadResult)) => payload == ['{', '}']
    case Message(FromInstall(InstallResult)) => payload == ['{', '}']
    case _ => false
  }

  /** The frame, or the stream itself, reports a failure. */
  predicate IsFailure(item: Item) {
    match item
    case Status(_) => true
    case Message(FromCompile(CompileResult(_, None))) => true
    case Message(FromInstall(DownloadProgress(Some(End(false, _))))) => true
    case _ => false
  }

  /** What a failure is to say: the daemon's words, or what went wrong and where. */
  ghost predicate IsReason(items: seq<Item>, k: nat, code: Code, detail: string)
    requires k < |items| && IsFailure(items[k])
  {
    match items[k]
    case Status(status) => code == Grpc && detail == status
    case Message(FromCompile(CompileResult(buildPath, _))) =>
      code == Daemon && |buildPath| <= |detail| && detail[|detail| - |buildPath|..] == buildPath
    case Message(FromInstall(DownloadProgress(Some(End(_, message))))) =>
      && code == Daemon
      && if message != "" then detail == message
         else exists name :: LatestLabel(items, k, name) && detail == "download of " + name + " failed"
    case _ => true
  }

  lemma MuteFramesYieldNothing(items: seq<Item>, k: nat)
    requires k < |items| && IsMute(items[k])
    ensures EventAt(items, k) == EventAt(items, k + 1)
  {
    ItemStands(items, k);
  }

  lemma OutputIsLogged(items: seq<Item>, k: nat, text: string)
    requires k < |items| && IsOutput(items[k], text)
    ensures EventAt(items, k) <= EventAt(items, k + 1) <= |AllEvents(items)| && EventsOf(items, k) == [Line(text)]
  {
    ItemStands(items, k);
  }

  lemma ProgressIsNamed(items: seq<Item>, k: nat, name: string, message: string, percent: real)
    requires k < |items| && IsProgress(items[k], name, message, percent)
    ensures EventAt(items, k) <= EventAt(items, k + 1) <= |AllEvents(items)|
    ensures |EventsOf(items, k)| == 1 && EventsOf(items, k)[0].Stage? && EventsOf(items, k)[0].percent == percent
    ensures name != "" ==> EventsOf(items, k)[0].phase == name
    ensures name == "" ==> EventsOf(items, k)[0].phase == message
  {
    ItemStands(items, k);
  }

  lemma StartIsAnnounced(items: seq<Item>, k: nat)
    requires k < |items| && IsStart(items[k])
    ensures EventAt(items, k) <= EventAt(items, k + 1) <= |AllEvents(items)|
    ensures EventsOf(items, k) == [Stage(StartLabel(items[k]), 0.0)]
  {
    ItemStands(items, k);
  }

  lemma SuccessIsHandedOver(items: seq<Item>, k: nat, payload: string)
    requires k < |items| && IsSuccess(items[k], payload)
    ensures EventAt(items, k) <= EventAt(items, k + 1) <= |AllEvents(items)| && EventsOf(items, k) == [Finished(payload)]
  {
    ItemStands(items, k);
  }

  /** A failure is the daemon's own, in its own words where it has any, and the last thing the stream ever yields. */
  lemma FailureIsLast(items: seq<Item>, k: nat)
    requires k < |items| && IsFailure(items[k])
    ensures EventAt(items, k) <= EventAt(items, k + 1) <= |AllEvents(items)|
    ensures |EventsOf(items, k)| == 1 && EventsOf(items, k)[0].Failed?
    ensures IsReason(items, k, EventsOf(items, k)[0].code, EventsOf(items, k)[0].detail)
    ensures |UpToFailure(AllEvents(items))| <= EventAt(items, k) + 1
  {
    ItemStands(items, k);
    LabelSticks(items, k);
    var n, events := EventAt(items, k), AllEvents(items);
    assert events[n] == EventsOf(items, k)[0];
    UpToFailureIsPrefix(events);
    assert n < |UpToFailure(events)| ==> UpToFailure(events)[n] == events[n];
  }

  /** Nothing else fails: an event is a failure only if its frame is one. */
  lemma OnlyFailuresFail(items: seq<Item>, k: nat)
    requires k < |items|
    ensures EventAt(items, k) <= EventAt(items, k + 1) <= |AllEvents(items)|
    ensures IsFailure(items[k]) <==> exists e :: e in EventsOf(items, k) && e.Failed?
  {
    ItemStands(items, k);
    if IsFailure(items[k]) {
      FailureIsLast(items, k);
      assert EventsOf(items, k)[0] in EventsOf(items, k);
    }
  }

  // ---- whole streams --------------------------------------------------------------------------------------

  /** The text of everything a stream has the browser shown, read off its frames. */
  function Outputs(items: seq<Item>): seq<string> {
    if items == [] then [] else Outputs(Front(items)) + OutputsOf(Last(items))
  }

  function OutputsOf(item: Item): seq<string> {
    match item
    case Message(FromCompile(CompileOutput(text))) => [text]
    case Message(FromUpload(UploadOutput(text))) => [text]
    case Message(FromInstall(DownloadProgress(Some(End(true, message))))) => if message == "" then [] else [message + ['\n']]
    case _ => []
  }

  function Lines(events: seq<Event>): seq<string> {
    if events == [] then [] else Lines(Front(events)) + (if Last(events).Line? then [Last(events).chunk] else [])
  }

  function LinesOf(event: Option<Event>): seq<string> {
    if event.Some? && event.value.Line? then [event.value.chunk] else []
  }

  lemma OneLogsItsOutput(item: Item, phase: string)
    ensures LinesOf(One(item, phase).0) == OutputsOf(item)
  {
  }

  lemma LinesAppend(events: seq<Event>, event: Option<Event>)
    ensures Lines(events + AsSeq(event)) == Lines(events) + LinesOf(event)
  {
    if event.Some? {
      assert Front(events + AsSeq(event)) == events;
    } else {
      assert events + AsSeq(event) == events;
    }
  }

  /** What a stream logs is its output, all of it and nothing else, in order. */
  lemma {:induction false} LogsAreTheOutput(items: seq<Item>)
    ensures Lines(AllEvents(items)) == Outputs(items)
  {
    if items != [] {
      var front, k := Front(items), |items| - 1;
      var event := One(items[k], PhaseIn(items, 0, k, "")).0;
      calc {
        Lines(AllEvents(items));
      ==  { EventsOfFront(items, front, k); }
        Lines(AllEvents(front) + AsSeq(event));
      ==  { LinesAppend(AllEvents(front), event); }
        Lines(AllEvents(front)) + LinesOf(event);
      ==  { LogsAreTheOutput(front); OneLogsItsOutput(items[k], PhaseIn(items, 0, k, "")); }
        Outputs(front) + OutputsOf(items[k]);
      }
    }
  }

  lemma {:induction false} EventsOfFront(items: seq<Item>, front: seq<Item>, n: nat)
    requires n <= |front| <= |items| && front == items[..|front|]
    ensures PhaseIn(items, 0, n, "") == PhaseIn(front, 0, n, "") && EventsIn(items, 0, n, "") == EventsIn(front, 0, n, "")
    decreases n
  {
    if n > 0 {
      EventsOfFront(items, front, n - 1);
      assert items[n - 1] == front[n - 1];
    }
  }
}
