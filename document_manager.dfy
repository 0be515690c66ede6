/**
 * The upload panel of the document manager (`DocumentManager`): which
 * files the picker lets through, and how `uploading`, `uploadProgress` and
 * `error` move while a file is posted to `/api/documents/upload`.
 */
module DocumentManager {
  import opened Wrappers
  import AppChecks

  /** The picked file: its name and the MIME type the browser reports. */
  datatype File = File(name: string, mimeType: string)

  const AllowedTypes: seq<string> := [
    "application/pdf",
    "application/vnd.openxmlformats-officedocument.wordprocessingml.document",
    "application/vnd.openxmlformats-officedocument.presentationml.presentation",
    "text/plain"
  ]

  const RejectionMessage: string := "Only PDF, DOCX, PPTX, and TXT files are supported"
  const UploadFallback: string := "Error uploading document"

  // ------------------------------------------------------------ acceptance

  /** `name` ends in `suffix`, compared ignoring ASCII case (`suffix` is lower case). */
  predicate EndsWithIgnoringCase(name: string, suffix: string) {
    |suffix| <= |name| && AppChecks.Lower(name[|name| - |suffix|..]) == suffix
  }

  /** The alternatives of the name pattern. */
  const Extensions: seq<string> := ["pdf", "docx", "pptx", "txt"]

  /** `name.match(/\.(pdf|docx|pptx|txt)$/i)`: a dot, one alternative, then the end. */
  predicate NameMatches(name: string) {
    exists ext :: ext in Extensions && EndsWithIgnoringCase(name, "." + ext)
  }

  /** The picker's test: an allowed MIME type, or an allowed extension in the name. */
  predicate Accepts(f: File) {
    f.mimeType in AllowedTypes || NameMatches(f.name)
  }

  /** A name ending in `.ext` (any case) has the server-side extension `ext`. */
  lemma ExtensionOfMatchingName(name: string, ext: string)
    requires '.' !in ext && EndsWithIgnoringCase(name, "." + ext)
    ensures AppChecks.Extension(name) == ext
  {
    MatchedSuffixParts(name, ext);
    var dot := |name| - |ext| - 1;
    var tail := name[dot + 1..];
    assert name == name[..dot] + "." + tail;
    AppChecks.AfterLastDotRoundTrip(name[..dot], tail);
    assert name[dot] in name;
  }

  /** The suffix matched by `.ext`: a real dot, then a dot-free tail that lower-cases to `ext`. */
  lemma MatchedSuffixParts(name: string, ext: string)
    requires '.' !in ext && EndsWithIgnoringCase(name, "." + ext)
    ensures name[|name| - |ext| - 1] == '.'
    ensures '.' !in name[|name| - |ext|..]
    ensures AppChecks.Lower(name[|name| - |ext|..]) == ext
  {
    var dot := |name| - |ext| - 1;
    var low := AppChecks.Lower(name[dot..]);
    assert low[0] == AppChecks.LowerChar(name[dot]) == '.';
    var tail := name[dot + 1..];
    forall i | 0 <= i < |tail| ensures tail[i] != '.' && AppChecks.LowerChar(tail[i]) == ext[i] {
      assert tail[i] == name[dot..][i + 1];
      assert low[i + 1] == ("." + ext)[i + 1] == ext[i];
      assert ext[i] in ext;
    }
  }

  /** A name whose server-side extension is `ext` ends in `.ext`, in some case. */
  lemma MatchingNameOfExtension(name: string, ext: string)
    requires ext != "" && AppChecks.Extension(name) == ext
    ensures EndsWithIgnoringCase(name, "." + ext)
  {
    assert '.' in name;
    DotTailMatches(name);
  }

  /** A name with a dot ends in that dot and the lower-cased part after it, ignoring case. */
  lemma DotTailMatches(name: string)
    requires '.' in name
    ensures EndsWithIgnoringCase(name, "." + AppChecks.Lower(AppChecks.AfterLastDot(name)))
  {
    var tail := AppChecks.AfterLastDot(name);
    DotTailShorter(name);
    var stem := name[..|name| - |tail| - 1];
    assert name == stem + "." + tail;
    DotThenTail(stem, tail);
  }

  /** `stem.tail` ends in `"." + tail`, ignoring case. */
  lemma DotThenTail(stem: string, tail: string)
    ensures EndsWithIgnoringCase(stem + "." + tail, "." + AppChecks.Lower(tail))
  {
    var name := stem + "." + tail;
    assert name[|stem|..] == "." + tail;
    LowerAppend(".", tail);
  }

  /** Lower-casing works character by character, so it distributes over concatenation. */
  lemma LowerAppend(a: string, b: string)
    ensures AppChecks.Lower(a + b) == AppChecks.Lower(a) + AppChecks.Lower(b)
  {
    var l, r := AppChecks.Lower(a + b), AppChecks.Lower(a) + AppChecks.Lower(b);
    forall i | 0 <= i < |a + b| ensures l[i] == r[i] {
      if i < |a| {
        assert (a + b)[i] == a[i];
      } else {
        assert (a + b)[i] == b[i - |a|];
      }
    }
  }

  /** With a dot in the name, the part after the last dot leaves room for that dot. */
  lemma DotTailShorter(name: string)
    requires '.' in name
    ensures |AppChecks.AfterLastDot(name)| < |name|
  {
    assert AppChecks.AfterLastDot(name) != name;
  }

  /** A name ending in an allowed `.ext` passes the server's checks. */
  lemma MatchedExtensionAccepted(name: string, ext: string)
    requires '.' !in ext && AppChecks.AllowedExtension(ext) && EndsWithIgnoringCase(name, "." + ext)
    ensures AppChecks.CheckUpload(Some(name)).None?
  {
    ExtensionOfMatchingName(name, ext);
    assert name != "";
  }

  /** A name the pattern matches passes the server's checks. */
  lemma MatchingNameAccepted(name: string)
    requires NameMatches(name)
    ensures AppChecks.CheckUpload(Some(name)).None?
  {
    var ext :| ext in Extensions && EndsWithIgnoringCase(name, "." + ext);
    ExtensionsAllowed(ext);
    MatchedExtensionAccepted(name, ext);
  }

  /** Every alternative of the pattern is a dot-free extension the server allows. */
  lemma ExtensionsAllowed(ext: string)
    requires ext in Extensions
    ensures '.' !in ext && AppChecks.AllowedExtension(ext)
  {
  }

  /** A name that passes the server's checks matches the pattern. */
  lemma AcceptedNameMatches(name: string)
    requires AppChecks.CheckUpload(Some(name)).None?
    ensures NameMatches(name)
  {
    var ext := AppChecks.Extension(name);
    assert AppChecks.AllowedExtension(ext);
    MatchingNameOfExtension(name, ext);
    assert ext in Extensions;
  }

  /**
   * Judged by name alone, the picker and `upload_document` agree: a name
   * matches the pattern exactly when the server's checks on it pass.
   */
  lemma NameMatchesIffServerAccepts(name: string)
    ensures NameMatches(name) <==> AppChecks.CheckUpload(Some(name)).None?
  {
    if NameMatches(name) {
      MatchingNameAccepted(name);
    }
    if AppChecks.CheckUpload(Some(name)).None? {
      AcceptedNameMatches(name);
    }
  }

  /**
   * The MIME type alone can carry a file past the picker that the server
   * then refuses: a plain-text file saved without an extension.
   */
  lemma MimeOnlyFileRefusedByServer()
    ensures Accepts(File("notes", "text/plain"))
    ensures AppChecks.CheckUpload(Some("notes")) == Some(AppChecks.Response(400, "File type not supported!"))
  {
    assert AllowedTypes[3] == "text/plain";
    assert '.' !in "notes";
  }

  // ----------------------------------------------------------- transitions

  datatype Status = Uploading | Succeeded | Failed

  /** `uploadProgress` when set: the file name and how its upload stands. */
  datatype Progress = Progress(filename: string, status: Status)

  /** How the post ended: accepted, or refused with the server's `message` if it sent one. */
  datatype Outcome = Posted | Refused(message: Option<string>)

  /**
   * The panel's state: the three hooks, plus the name of the file whose
   * post is awaited (the suspended handler) and the number of
   * progress-clearing timers still to fire.
   */
  datatype Panel = Panel(
    uploading: bool, progress: Option<Progress>, error: Option<string>,
    pending: Option<string>, timers: nat)

  const Idle: Panel := Panel(false, None, None, None, 0)

  /**
   * What holds between events: exactly one post is awaited while
   * `uploading`, a progress entry that still says "uploading" is that
   * post's, and an error shown is never empty.
   */
  ghost predicate Inv(p: Panel) {
    && (p.uploading <==> p.pending.Some?)
    && (p.progress.Some? && p.progress.value.status == Uploading ==>
          p.pending == Some(p.progress.value.filename))
    && (p.error.Some? ==> p.error.value != "")
  }

  /** `error.response?.data?.message || 'Error uploading document'`. */
  function UploadErrorText(message: Option<string>): (r: string)
    ensures r != ""
    ensures message.Some? && message.value != "" ==> r == message.value
    ensures message.None? || message.value == "" ==> r == UploadFallback
  {
    if message.Some? && message.value != "" then message.value else UploadFallback
  }

  /** The synchronous part of `handleFileUpload`, up to the post. */
  function Pick(p: Panel, file: Option<File>): (r: Panel)
    requires !p.uploading
    ensures file.None? ==> r == p
    ensures file.Some? && !Accepts(file.value) ==>
      r == p.(error := Some(RejectionMessage))
    ensures r.uploading <==> file.Some? && Accepts(file.value)
    ensures file.Some? && Accepts(file.value) ==>
      r.uploading && r.error.None? && r.progress == Some(Progress(file.value.name, Uploading)) &&
      r.pending == Some(file.value.name) && r.timers == p.timers
  {
    match file
    case None => p
    case Some(f) =>
      if !Accepts(f) then p.(error := Some(RejectionMessage))
      else p.(uploading := true, error := None, progress := Some(Progress(f.name, Uploading)), pending := Some(f.name))
  }

  /** The rest of `handleFileUpload` once the post settles, `finally` included. */
  function Settle(p: Panel, outcome: Outcome): (r: Panel)
    requires p.pending.Some?
    ensures !r.uploading && r.pending.None?
    ensures r.progress.Some? && r.progress.value.filename == p.pending.value
    ensures r.progress.value.status == Succeeded <==> outcome.Posted?
    ensures outcome.Posted? ==> r.error == p.error && r.timers == p.timers + 1
    ensures outcome.Refused? ==> r.error == Some(UploadErrorText(outcome.message)) && r.timers == p.timers
  {
    var name := p.pending.value;
    match outcome
    case Posted =>
      p.(progress := Some(Progress(name, Succeeded)), timers := p.timers + 1, uploading := false, pending := None)
    case Refused(message) =>
      p.(error := Some(UploadErrorText(message)), progress := Some(Progress(name, Failed)), uploading := false, pending := None)
  }

  /** A success timer fires: `setUploadProgress(null)`, whatever the progress now shows. */
  function Expire(p: Panel): (r: Panel)
    requires p.timers > 0
    ensures r.progress.None? && r.timers == p.timers - 1
    ensures r.uploading == p.uploading && r.pending == p.pending && r.error == p.error
  {
    p.(progress := None, timers := p.timers - 1)
  }

  /** The progress entry's close button is shown only once the upload is over. */
  predicate DismissOffered(p: Panel) {
    p.progress.Some? && p.progress.value.status != Uploading
  }

  datatype Event =
    | Choose(file: Option<File>)   // the file input's change event
    | Answer(outcome: Outcome)     // the awaited post settles
    | TimerFires
    | CloseProgress
    | CloseError

  /** Whether the event can occur: the input is disabled while uploading, a close button must be shown. */
  predicate Enabled(p: Panel, e: Event) {
    match e
    case Choose(_) => !p.uploading
    case Answer(_) => p.pending.Some?
    case TimerFires => p.timers > 0
    case CloseProgress => DismissOffered(p)
    case CloseError => p.error.Some?
  }

  function Step(p: Panel, e: Event): Panel
    requires Enabled(p, e)
  {
    match e
    case Choose(file) => Pick(p, file)
    case Answer(outcome) => Settle(p, outcome)
    case TimerFires => Expire(p)
    case CloseProgress => p.(progress := None)
    case CloseError => p.(error := None)
  }

  /** The state after the events, those that cannot occur when they arrive skipped. */
  function Run(p: Panel, es: seq<Event>): Panel
    decreases |es|
  {
    if es == [] then p
    else Run(if Enabled(p, es[0]) then Step(p, es[0]) else p, es[1..])
  }

  lemma StepKeepsInv(p: Panel, e: Event)
    requires Inv(p) && Enabled(p, e)
    ensures Inv(Step(p, e))
  {
  }

  /** Whatever happens, the panel keeps its invariant. */
  lemma {:induction false} RunKeepsInv(p: Panel, es: seq<Event>)
    requires Inv(p)
    ensures Inv(Run(p, es))
    decreases |es|
  {
    if es != [] {
      if Enabled(p, es[0]) {
        StepKeepsInv(p, es[0]);
      }
      RunKeepsInv(if Enabled(p, es[0]) then Step(p, es[0]) else p, es[1..]);
    }
  }

  /**
   * A success timer outlives its upload: a file picked within the three
   * seconds loses its "uploading" entry when the timer fires, although its
   * post is still awaited.
   */
  lemma StaleTimerClearsNextUpload(first: File, second: File)
    requires Accepts(first) && Accepts(second)
    ensures var p := Run(Idle, [Choose(Some(first)), Answer(Posted), Choose(Some(second)), TimerFires]);
      p.uploading && p.pending == Some(second.name) && p.progress.None?
  {
    var p1 := Pick(Idle, Some(first));
    var p2 := Settle(p1, Posted);
    var p3 := Pick(p2, Some(second));
    var p4 := Expire(p3);
    var es := [Choose(Some(first)), Answer(Posted), Choose(Some(second)), TimerFires];
    assert es[1..][1..][1..][1..] == [];
    calc {
      Run(Idle, es);
      Run(p1, es[1..]);
      Run(p2, es[1..][1..]);
      Run(p3, es[1..][1..][1..]);
      Run(p4, []);
    }
  }

  // ------------------------------------------------------------- component

  /** The component's hooks; the awaited file and the pending timers are ghost bookkeeping. */
  class UploadPanel {
    var uploading: bool
    var uploadProgress: Option<Progress>
    var error: Option<string>
    ghost var pending: Option<string>
    ghost var timers: nat

    ghost function State(): Panel
      reads this
    {
      Panel(uploading, uploadProgress, error, pending, timers)
    }

    ghost predicate Valid()
      reads this
    {
      Inv(State())
    }

    constructor ()
      ensures Valid() && State() == Idle
    {
      uploading, uploadProgress, error := false, None, None;
      pending, timers := None, 0;
    }

    /** `handleFileUpload` up to the awaited post; the input is disabled while uploading. */
    method HandleFileUpload(file: Option<File>)
      requires Valid() && !uploading
      modifies this
      ensures Valid() && State() == Pick(old(State()), file)
    {
      if file.None? {
        return;
      }
      var f := file.value;
      if !(f.mimeType in AllowedTypes) && !NameMatches(f.name) {
        error := Some(RejectionMessage);
        return;
      }
      uploading := true;
      error := None;
      uploadProgress := Some(Progress(f.name, Uploading));
      pending := Some(f.name);
    }

    /** The handler resumes with the post's outcome; `name` is the file it captured. */
    method UploadSettled(name: string, outcome: Outcome)
      requires Valid() && pending == Some(name)
      modifies this
      ensures Valid() && State() == Settle(old(State()), outcome)
    {
      match outcome {
        case Posted =>
          uploadProgress := Some(Progress(name, Succeeded));
          timers := timers + 1;
        case Refused(message) =>
          error := Some(UploadErrorText(message));
          uploadProgress := Some(Progress(name, Failed));
      }
      uploading := false;
      pending := None;
    }

    /** The 3000 ms timer set on success fires. */
    method TimerFired()
      requires Valid() && timers > 0
      modifies this
      ensures Valid() && State() == Expire(old(State()))
    {
      uploadProgress := None;
      timers := timers - 1;
    }

    /** The progress entry's close button. */
    method DismissProgress()
      requires Valid() && DismissOffered(State())
      modifies this
      ensures Valid() && State() == Step(old(State()), CloseProgress)
    {
      uploadProgress := None;
    }

    /** The error banner's close button. */
    method DismissError()
      requires Valid() && error.Some?
      modifies this
      ensures Valid() && State() == Step(old(State()), CloseError)
    {
      error := None;
    }
  }
}
