/** Translation of the daemon's response frames into the helper's own events, one RPC at a time
    (src/service/arduino/grpc/compile.rs, upload.rs and platform.rs). */
module Frames {
  import opened Protocol

  /** One translated step of a stream, with the translation's own error as a case. */
  datatype Event =
    | Line(chunk: string)
    | Stage(phase: string, percent: real)
    | Finished(payload: string)
    | Failed(code: Code, detail: string)

  /** `CompileResponse`; `artifact` is what looking through the build directory turned up, if anything. */
  datatype CompileFrame =
    | NoCompileMessage
    | CompileOutput(text: string)
    | CompileProgress(name: string, message: string, percent: real)
    | CompileResult(buildPath: string, artifact: Option<string>)

  datatype UploadFrame = NoUploadMessage | UploadOutput(text: string) | UploadResult

  datatype Download = Start(label0: string) | Update(downloaded: int, totalSize: int) | End(success: bool, message: string)

  datatype InstallFrame =
    | NoInstallMessage
    | DownloadProgress(download: Option<Download>)
    | TaskProgress(name: string, message: string, percent: real)
    | InstallResult

  datatype Frame = FromCompile(compile: CompileFrame) | FromUpload(upload: UploadFrame) | FromInstall(install: InstallFrame)

  function TranslateCompile(frame: CompileFrame): Option<Event> {
    match frame
    case NoCompileMessage => None
    case CompileOutput(text) => Some(Line(text))
    case CompileProgress(name, message, percent) => Some(Stage(if name == "" then message else name, percent))
    case CompileResult(buildPath, artifact) =>
      match artifact
      case Some(payload) => Some(Finished(payload))
      case None => Some(Failed(Daemon, "compile produced no flashable artifact in " + buildPath))
  }

  function TranslateUpload(frame: UploadFrame): Option<Event> {
    match frame
    case NoUploadMessage => None
    case UploadOutput(text) => Some(Line(text))
    case UploadResult => Some(Finished("{}"))
  }

  /** The second result is the download label, which only a Start frame sets. */
  function TranslateInstall(frame: InstallFrame, phase: string): (Option<Event>, string) {
    match frame
    case NoInstallMessage => (None, phase)
    case DownloadProgress(None) => (None, phase)
    case DownloadProgress(Some(download)) => TranslateDownload(download, phase)
    case TaskProgress(name, message, percent) => (Some(Stage(if name == "" then message else name, percent)), phase)
    case InstallResult => (Some(Finished("{}")), phase)
  }

  function TranslateDownload(download: Download, phase: string): (Option<Event>, string) {
    match download
    case Start(name) => (Some(Stage(name, 0.0)), name)
    case Update(downloaded, totalSize) =>
      if totalSize > 0
      then (Some(Stage(phase, 100.0 * downloaded as real / totalSize as real)), phase)
      else (None, phase)
    case End(success, message) =>
      if success then (if message == "" then None else Some(Line(message + "\n")), phase)
      else (Some(Failed(Daemon, if message == "" then "download of " + phase + " failed" else message)), phase)
  }

  function Translate(frame: Frame, phase: string): (Option<Event>, string) {
    match frame
    case FromCompile(f) => (TranslateCompile(f), phase)
    case FromUpload(f) => (TranslateUpload(f), phase)
    case FromInstall(f) => TranslateInstall(f, phase)
  }

  /** What one read of a gRPC stream yields; running out of items is the stream's end. */
  datatype Item = Message(frame: Frame) | Status(detail: string)

  /** What one item translates to (an event or nothing), and the label it leaves behind. */
  function One(item: Item, phase: string): (Option<Event>, string) {
    match item
    case Status(detail) => (Some(Failed(Grpc, detail)), phase)
    case Message(frame) => Translate(frame, phase)
  }

  function AsSeq(event: Option<Event>): seq<Event> {
    if event.Some? then [event.value] else []
  }

  /** The label in force after reading `items[from..upTo]` with label `phase`. */
  function PhaseIn(items: seq<Item>, from: nat, upTo: nat, phase: string): string
    requires from <= upTo <= |items|
    decreases upTo
  {
    if from == upTo then phase else One(items[upTo - 1], PhaseIn(items, from, upTo - 1, phase)).1
  }

  /** Every item of `items[from..upTo]` translated in turn, empty frames skipped, the label carried along; no notion
      of stopping. */
  function EventsIn(items: seq<Item>, from: nat, upTo: nat, phase: string): seq<Event>
    requires from <= upTo <= |items|
    decreases upTo
  {
    if from == upTo then []
    else EventsIn(items, from, upTo - 1, phase) + AsSeq(One(items[upTo - 1], PhaseIn(items, from, upTo - 1, phase)).0)
  }

  function AllEvents(items: seq<Item>): seq<Event> {
    EventsIn(items, 0, |items|, "")
  }

  lemma {:induction false} EventsSplit(items: seq<Item>, from: nat, mid: nat, upTo: nat, phase: string)
    requires from <= mid <= upTo <= |items|
    ensures PhaseIn(items, from, upTo, phase) == PhaseIn(items, mid, upTo, PhaseIn(items, from, mid, phase))
    ensures EventsIn(items, from, upTo, phase)
      == EventsIn(items, from, mid, phase) + EventsIn(items, mid, upTo, PhaseIn(items, from, mid, phase))
    decreases upTo
  {
    if mid < upTo {
      EventsSplit(items, from, mid, upTo - 1, phase);
    }
  }

  /** The front of what is still to come. */
  lemma EventsFront(items: seq<Item>, from: nat, phase: string)
    requires from < |items|
    ensures EventsIn(items, from, |items|, phase)
      == AsSeq(One(items[from], phase).0) + EventsIn(items, from + 1, |items|, One(items[from], phase).1)
  {
    EventsSplit(items, from, from + 1, |items|, phase);
    assert PhaseIn(items, from, from, phase) == phase && EventsIn(items, from, from, phase) == [];
  }

  // ---- the sticky download label --------------------------------------------------------------------------

  predicate IsStart(item: Item) {
    && item.Message? && item.frame.FromInstall? && item.frame.install.DownloadProgress?
    && item.frame.install.download.Some? && item.frame.install.download.value.Start?
  }

  predicate IsUpdate(item: Item) {
    && item.Message? && item.frame.FromInstall? && item.frame.install.DownloadProgress?
    && item.frame.install.download.Some? && item.frame.install.download.value.Update?
  }

  function StartLabel(item: Item): string
    requires IsStart(item)
  {
    item.frame.install.download.value.label0
  }

  /** `name` labels the last download started among the first `k` items, or is empty if none was. */
  ghost predicate LatestLabel(items: seq<Item>, k: nat, name: string)
    requires k <= |items|
  {
    || (name == "" && forall i :: 0 <= i < k ==> !IsStart(items[i]))
    || exists s: nat :: StartsLast(items, s, k, name)
  }

  ghost predicate StartsLast(items: seq<Item>, s: nat, k: nat, name: string)
  {
    s < k <= |items| && IsStart(items[s]) && StartLabel(items[s]) == name && forall i :: s < i < k ==> !IsStart(items[i])
  }

  lemma {:induction false} LabelSticks(items: seq<Item>, k: nat)
    requires k <= |items|
    ensures LatestLabel(items, k, PhaseIn(items, 0, k, ""))
  {
    if k > 0 {
      var before := k - 1;
      LabelSticks(items, before);
      var name := PhaseIn(items, 0, before, "");
      if IsStart(items[k - 1]) {
        assert StartsLast(items, k - 1, k, StartLabel(items[k - 1]));
      } else if s: nat :| StartsLast(items, s, before, name) {
        assert StartsLast(items, s, k, name);
      }
    }
  }

  /** Where among all events the event of `items[k]` stands, if it has one. */
  function EventAt(items: seq<Item>, k: nat): nat
    requires k <= |items|
  {
    |EventsIn(items, 0, k, "")|
  }

  lemma UpdateShows(item: Item, phase: string)
    requires IsUpdate(item) && item.frame.install.download.value.totalSize > 0
    ensures var update := item.frame.install.download.value;
      One(item, phase).0 == Some(Stage(phase, 100.0 * update.downloaded as real / update.totalSize as real))
  {
  }

  /** A frame's own event stands behind those of the frames before it. */
  lemma EventStands(items: seq<Item>, k: nat, event: Event)
    requires k < |items| && One(items[k], PhaseIn(items, 0, k, "")).0 == Some(event)
    ensures EventAt(items, k) < EventAt(items, k + 1) && EventAt(items, k) < |AllEvents(items)|
    ensures AllEvents(items)[EventAt(items, k)] == event
  {
    EventsSplit(items, 0, k, |items|, "");
    EventsFront(items, k, PhaseIn(items, 0, k, ""));
  }

  lemma UpdateStands(items: seq<Item>, k: nat)
    requires k < |items| && IsUpdate(items[k]) && items[k].frame.install.download.value.totalSize > 0
    ensures EventAt(items, k) < EventAt(items, k + 1) && EventAt(items, k) < |AllEvents(items)|
    ensures var update := items[k].frame.install.download.value;
      AllEvents(items)[EventAt(items, k)]
        == Stage(PhaseIn(items, 0, k, ""), 100.0 * update.downloaded as real / update.totalSize as real)
  {
    var phase := PhaseIn(items, 0, k, "");
    UpdateShows(items[k], phase);
    EventStands(items, k, One(items[k], phase).0.value);
  }

  /** Every progress event that comes from an Update frame stands where that frame stood and carries the label of
      the latest Start before it, whatever empty, unknown-size, task or End frames lie between. */
  lemma UpdateCarriesLatestLabel(items: seq<Item>, k: nat)
    requires k < |items| && IsUpdate(items[k])
    requires items[k].frame.install.download.value.totalSize > 0
    ensures var update := items[k].frame.install.download.value;
      var n := EventAt(items, k);
      && n < |AllEvents(items)| && AllEvents(items)[n].Stage?
      && LatestLabel(items, k, AllEvents(items)[n].phase)
      && AllEvents(items)[n].percent == 100.0 * update.downloaded as real / update.totalSize as real
  {
    LabelSticks(items, k);
    UpdateStands(items, k);
  }

  /** The frames `items[lo..hi]` belong to one download: none starts another, and the counter of the Update frames
      never falls and stays within one total, whatever other frames come between them. */
  ghost predicate IsOneDownload(items: seq<Item>, lo: nat, hi: nat, total: int)
    requires lo <= hi <= |items|
  {
    && total > 0
    && (forall i :: lo <= i < hi ==> !IsStart(items[i]))
    && (forall i :: lo <= i < hi && IsUpdate(items[i]) ==>
          items[i].frame.install.download.value.totalSize == total && 0 <= Counter(items[i]) <= total)
    && forall i, j :: lo <= i <= j < hi && IsUpdate(items[i]) && IsUpdate(items[j]) ==> Counter(items[i]) <= Counter(items[j])
  }

  function Counter(item: Item): int
    requires IsUpdate(item)
  {
    item.frame.install.download.value.downloaded
  }

  lemma {:induction false} LabelStays(items: seq<Item>, i: nat, j: nat)
    requires i <= j <= |items| && forall k :: i <= k < j ==> !IsStart(items[k])
    ensures PhaseIn(items, 0, j, "") == PhaseIn(items, 0, i, "")
    decreases j
  {
    if i < j { LabelStays(items, i, j - 1); }
  }

  /** Within one download the progress events of the whole stream's translation stand in the frames' order, under one
      label, with percentages that lie in 0 to 100 and never fall. */
  lemma PercentsClimb(items: seq<Item>, lo: nat, hi: nat, total: int, i: nat, j: nat)
    requires lo <= i < j < hi <= |items| && IsOneDownload(items, lo, hi, total) && IsUpdate(items[i]) && IsUpdate(items[j])
    ensures EventAt(items, i) < EventAt(items, j) < |AllEvents(items)|
    ensures var a, b := AllEvents(items)[EventAt(items, i)], AllEvents(items)[EventAt(items, j)];
      a.Stage? && b.Stage? && a.phase == b.phase && 0.0 <= a.percent <= b.percent <= 100.0
  {
    UpdateStands(items, i);
    UpdateStands(items, j);
    EventsSplit(items, 0, i + 1, j, "");
    LabelStays(items, i, j);
    var t := total as real;
    Scale(0.0, Counter(items[i]) as real, t);
    Scale(Counter(items[i]) as real, Counter(items[j]) as real, t);
    Scale(Counter(items[j]) as real, t, t);
  }

  lemma Scale(x: real, y: real, t: real)
    requires 0.0 <= x <= y && t > 0.0
    ensures 100.0 * x / t <= 100.0 * y / t
    ensures x == 0.0 ==> 100.0 * x / t == 0.0
    ensures y == t ==> 100.0 * y / t == 100.0
  {
  }
}
