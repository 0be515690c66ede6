/**
 * The Study Lab controller (`StudyTools`): the active tab, and the
 * loading / error / data status of the study-material request that every
 * tab change issues. Each answer, whenever it arrives, is applied: nothing
 * ties a response to the tab that asked for it.
 */
module StudyLab {
  import opened Wrappers
  import opened Json
  import AppChecks

  datatype Tab = Flashcards | Quiz | MindMap

  /** The `type` sent in the request body for a tab. */
  function TypeName(t: Tab): (r: string)
    ensures r == "flashcards" || r == "quiz" || r == "mindmap"
    ensures AppChecks.ValidToolType(Str(r))  // the back end accepts every tab's request
  {
    match t
    case Flashcards => "flashcards"
    case Quiz => "quiz"
    case MindMap => "mindmap"
  }

  /** How one request ended: the response body, or the server's `message` if it sent one. */
  datatype Answer = Delivered(payload: Value) | Failed(message: Option<string>)

  const Fallback: string := "Failed to generate study material. Please try again."

  /** `err.response?.data?.message || 'Failed to generate ...'`. */
  function ErrorText(message: Option<string>): (r: string)
    ensures r != ""
    ensures message.Some? && message.value != "" ==> r == message.value
    ensures message.None? || message.value == "" ==> r == Fallback
  {
    if message.Some? && message.value != "" then message.value else Fallback
  }

  /** What the content area shows. */
  datatype Content =
    | Generating(tab: Tab)  // spinner, "Generating {tab}..."
    | ErrorPanel(message: string)  // the message and "Try Again"
    | Session(tab: Tab, payload: Value)  // the view of `tab`, mounted on `payload`
    | Blank

  /** The content area for the given state: spinner, then error, then the active tab's view. */
  function Show(tab: Tab, loading: bool, data: Value, error: Option<string>): (c: Content)
    ensures loading <==> c == Generating(tab)
    ensures c.ErrorPanel? <==> !loading && error.Some? && error.value != ""
    ensures c.Session? ==> c.tab == tab && c.payload == data && Truthy(data)
    ensures c == Blank <==> !loading && (error.None? || error.value == "") && !Truthy(data)
  {
    if loading then Generating(tab)
    else if error.Some? && error.value != "" then ErrorPanel(error.value)
    else if Truthy(data) then Session(tab, data)
    else Blank
  }

  /** The mounted `StudyTools` component. */
  class StudyLabView {
    var activeTab: Tab
    var loading: bool
    var data: Value
    var error: Option<string>
    /** Requests issued and not yet answered (the source keeps no such count). */
    ghost var inFlight: nat

    ghost predicate Valid()
      reads this
    {
      error.Some? ==> error.value != ""
    }

    function View(): Content
      reads this
    {
      Show(activeTab, loading, data, error)
    }

    /** Mounting: the flashcards tab, and its first request issued by the effect. */
    constructor ()
      ensures Valid()
      ensures activeTab == Flashcards && loading && data == Null && error.None? && inFlight == 1
    {
      activeTab := Flashcards;
      data := Null;
      loading := true;
      error := None;
      inFlight := 1;
    }

    /** `fetchStudyMaterial(activeTab)` up to the request: loading on, error cleared, data kept. */
    method FetchStudyMaterial() returns (requested: string)
      requires Valid()
      modifies this
      ensures Valid()
      ensures requested == TypeName(activeTab)
      ensures loading && error.None? && inFlight == old(inFlight) + 1
      ensures activeTab == old(activeTab) && data == old(data)
    {
      loading := true;
      error := None;
      inFlight := inFlight + 1;
      requested := TypeName(activeTab);
    }

    /** A tab button: the effect issues a request only when the tab actually changes. */
    method SelectTab(t: Tab) returns (requested: Option<string>)
      requires Valid()
      modifies this
      ensures Valid()
      ensures activeTab == t && data == old(data)
      ensures t == old(activeTab) ==> requested.None? && loading == old(loading) && error == old(error) && inFlight == old(inFlight)
      ensures t != old(activeTab) ==> requested == Some(TypeName(t)) && loading && error.None? && inFlight == old(inFlight) + 1
    {
      if t == activeTab {
        return None;
      }
      activeTab := t;
      var name := FetchStudyMaterial();
      requested := Some(name);
    }

    /** "Try Again", offered with the error panel: the same request once more. */
    method Retry() returns (requested: string)
      requires Valid() && View().ErrorPanel?
      modifies this
      ensures Valid()
      ensures requested == TypeName(activeTab) && loading && error.None?
      ensures activeTab == old(activeTab) && data == old(data) && inFlight == old(inFlight) + 1
    {
      requested := FetchStudyMaterial();
    }

    /**
     * Some request's answer arrives: a payload replaces `data` whatever tab
     * is active now, a failure sets `error`; either way loading ends.
     */
    method Receive(answer: Answer)
      requires Valid() && inFlight > 0
      modifies this
      ensures Valid()
      ensures !loading && activeTab == old(activeTab) && inFlight == old(inFlight) - 1
      ensures answer.Delivered? ==> data == answer.payload && error == old(error)
      ensures answer.Failed? ==> data == old(data) && error == Some(ErrorText(answer.message))
    {
      match answer {
        case Delivered(payload) =>
          data := payload;
        case Failed(message) =>
          error := Some(ErrorText(message));
      }
      loading := false;
      inFlight := inFlight - 1;
    }
  }

  /**
   * Switching from the quiz to the mind map while the quiz request is out:
   * when the quiz payload lands, the mind-map tab mounts its view on it.
   */
  method StaleQuizPayload(cards: Value, questions: Value) returns (content: Content)
    requires Truthy(questions)
    ensures content == Session(MindMap, questions)
  {
    var lab := new StudyLabView();
    lab.Receive(Delivered(cards));
    var q := lab.SelectTab(Quiz);
    var m := lab.SelectTab(MindMap);
    lab.Receive(Delivered(questions));
    content := lab.View();
  }

  /**
   * A failure that lands before a later success keeps the error panel up:
   * a delivered payload does not clear `error`.
   */
  method ErrorOutlivesLaterPayload(questions: Value, message: string) returns (content: Content)
    requires message != ""
    ensures content == ErrorPanel(message)
  {
    var lab := new StudyLabView();
    var q := lab.SelectTab(Quiz);
    lab.Receive(Failed(Some(message)));
    lab.Receive(Delivered(questions));
    content := lab.View();
  }
}
