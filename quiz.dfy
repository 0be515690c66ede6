/**
 * The quiz session of the Study Lab (`QuizView`): one multiple-choice
 * question at a time, a score, a guard against answering twice, an
 * advance/finish rule and a restart.
 */
module Quiz {
  import opened Wrappers
  import opened Json

  /** The five state hooks of `QuizView`. */
  datatype Progress = Progress(
    index: nat,
    score: nat,
    selected: Option<nat>,
    showResult: bool,
    finished: bool)

  /** The state a freshly mounted (or restarted) quiz is in. */
  const Initial: Progress := Progress(0, 0, None, false, false)

  /** The quiz guard: the payload is a truthy, non-empty array. */
  predicate IsQuiz(questions: Value) {
    Truthy(questions) && questions.Arr? && |questions.items| != 0
  }

  /** `optIndex === questions[index].correct_index`. */
  predicate IsCorrect(questions: seq<Value>, index: nat, opt: nat) {
    Get(At(questions, index), "correct_index") == Num(opt)
  }

  /** `handleOptionClick(opt)`. */
  function Choose(questions: seq<Value>, p: Progress, opt: nat): (r: Progress)
    ensures p.showResult ==> r == p
    ensures !p.showResult ==>
      r.showResult && r.selected == Some(opt) && r.index == p.index && r.finished == p.finished
    ensures r.score == p.score + (if !p.showResult && IsCorrect(questions, p.index, opt) then 1 else 0)
  {
    if p.showResult then p
    else
      var score := if IsCorrect(questions, p.index, opt) then p.score + 1 else p.score;
      p.(selected := Some(opt), showResult := true, score := score)
  }

  /** `handleNext` on a quiz of `n` questions. */
  function Advance(n: nat, p: Progress): (r: Progress)
    ensures r.score == p.score
    ensures p.index + 1 < n ==>
      r.index == p.index + 1 && r.selected.None? && !r.showResult && r.finished == p.finished
    ensures p.index + 1 >= n ==> r == p.(finished := true)
  {
    if p.index + 1 < n then p.(index := p.index + 1, selected := None, showResult := false)
    else p.(finished := true)
  }

  /** The user's actions on the quiz. */
  datatype Event = ChooseOption(opt: nat) | NextQuestion | RestartQuiz

  /** The effect of one action; "Restart Quiz" resets every hook. */
  function Step(questions: seq<Value>, p: Progress, e: Event): Progress {
    match e
    case ChooseOption(opt) => Choose(questions, p, opt)
    case NextQuestion => Advance(|questions|, p)
    case RestartQuiz => Initial
  }

  /** The state after a sequence of actions. */
  function Run(questions: seq<Value>, p: Progress, events: seq<Event>): Progress
    decreases |events|
  {
    if events == [] then p else Run(questions, Step(questions, p, events[0]), events[1..])
  }

  /** The actions the rendered quiz offers in state `p`. */
  predicate Offered(p: Progress, e: Event) {
    match e
    case ChooseOption(_) => !p.finished
    case NextQuestion => !p.finished && p.showResult
    case RestartQuiz => p.finished
  }

  /**
   * What every reachable state satisfies: the index names a question, an
   * option is selected exactly while the result shows, a finished quiz is on
   * its last question, and the score counts at most the answered questions.
   */
  ghost predicate Inv(n: nat, p: Progress) {
    && p.index < n
    && (p.selected.Some? <==> p.showResult)
    && (p.finished ==> p.index == n - 1)
    && p.score <= p.index + (if p.showResult then 1 else 0)
  }

  /** Every handler keeps the invariant, whether or not the view offers it. */
  lemma StepKeepsInv(questions: seq<Value>, p: Progress, e: Event)
    requires Inv(|questions|, p)
    ensures Inv(|questions|, Step(questions, p, e))
  {
  }

  /** From the initial state, any sequence of actions keeps the score within `[0, n]`. */
  lemma {:induction false} RunKeepsInv(questions: seq<Value>, p: Progress, events: seq<Event>)
    requires Inv(|questions|, p)
    ensures Inv(|questions|, Run(questions, p, events))
    ensures Run(questions, p, events).score <= |questions|
    decreases |events|
  {
    if events != [] {
      StepKeepsInv(questions, p, events[0]);
      RunKeepsInv(questions, Step(questions, p, events[0]), events[1..]);
    }
  }

  /** In any state the view offers, a finished quiz still shows its last result. */
  lemma {:induction false} OfferedRunRevealsBeforeFinishing(questions: seq<Value>, p: Progress, events: seq<Event>)
    requires Inv(|questions|, p) && (p.finished ==> p.showResult)
    requires forall k :: 0 <= k < |events| ==> Offered(Run(questions, p, events[..k]), events[k])
    ensures Run(questions, p, events).finished ==> Run(questions, p, events).showResult
    decreases |events|
  {
    if events != [] {
      var q := Step(questions, p, events[0]);
      assert Run(questions, p, events[..0]) == p;
      StepKeepsInv(questions, p, events[0]);
      forall k | 0 <= k < |events[1..]|
        ensures Offered(Run(questions, q, events[1..][..k]), events[1..][k])
      {
        assert events[..k + 1] == [events[0]] + events[1..][..k];
        assert Run(questions, p, events[..k + 1]) == Run(questions, q, events[1..][..k]);
      }
      OfferedRunRevealsBeforeFinishing(questions, q, events[1..]);
    }
  }

  /** Running two sequences one after the other. */
  lemma {:induction false} RunAppend(questions: seq<Value>, p: Progress, a: seq<Event>, b: seq<Event>)
    ensures Run(questions, p, a + b) == Run(questions, Run(questions, p, a), b)
    decreases |a|
  {
    if a != [] {
      assert (a + b)[0] == a[0] && (a + b)[1..] == a[1..] + b;
      RunAppend(questions, Step(questions, p, a[0]), a[1..], b);
    } else {
      assert a + b == b;
    }
  }

  /** The actions of a user who answers question `j` with `answers[j]` and presses "next" each time. */
  function Play(answers: seq<nat>): (events: seq<Event>)
    ensures |events| == 2 * |answers|
  {
    if answers == [] then []
    else Play(answers[..|answers| - 1]) + [ChooseOption(answers[|answers| - 1]), NextQuestion]
  }

  /** How many of `answers` are correct, question by question. */
  function CountCorrect(questions: seq<Value>, answers: seq<nat>): (c: nat)
    ensures c <= |answers|
  {
    if answers == [] then 0
    else
      CountCorrect(questions, answers[..|answers| - 1]) +
      (if IsCorrect(questions, |answers| - 1, answers[|answers| - 1]) then 1 else 0)
  }

  /**
   * Answering the first `k` questions leaves the quiz on question `k` with
   * the count of correct answers as score; answering all `n` finishes it.
   */
  lemma {:induction false} PlayScores(questions: seq<Value>, answers: seq<nat>)
    requires 0 < |questions| && |answers| <= |questions|
    ensures var r := Run(questions, Initial, Play(answers));
      if |answers| < |questions| then
        r == Progress(|answers|, CountCorrect(questions, answers), None, false, false)
      else
        r == Progress(|questions| - 1, CountCorrect(questions, answers),
                      Some(answers[|answers| - 1]), true, true)
  {
    if answers != [] {
      var init := answers[..|answers| - 1];
      PlayScores(questions, init);
      RunAppend(questions, Initial, Play(init), [ChooseOption(answers[|answers| - 1]), NextQuestion]);
      var mid := Run(questions, Initial, Play(init));
      var chosen := Step(questions, mid, ChooseOption(answers[|answers| - 1]));
      assert Run(questions, mid, [ChooseOption(answers[|answers| - 1]), NextQuestion])
          == Run(questions, chosen, [NextQuestion]);
    }
  }

  /** A complete run scores exactly the number of correct answers, out of `n`. */
  lemma FinalScore(questions: seq<Value>, answers: seq<nat>)
    requires 0 < |questions| && |answers| == |questions|
    ensures Run(questions, Initial, Play(answers)).finished
    ensures Run(questions, Initial, Play(answers)).score == CountCorrect(questions, answers) <= |questions|
  {
    PlayScores(questions, answers);
  }

  /** How an option button is drawn. */
  datatype Mark = Plain | Right | Wrong | Faded

  /** Option `i` of the current question: the correct one and a wrong pick are marked once the result shows. */
  function MarkOf(question: Value, p: Progress, i: nat): (m: Mark)
    ensures m == Plain <==> !p.showResult
    ensures m == Right <==> p.showResult && Get(question, "correct_index") == Num(i)
    ensures m == Wrong <==> p.showResult && Get(question, "correct_index") != Num(i) && p.selected == Some(i)
  {
    if !p.showResult then Plain
    else if Get(question, "correct_index") == Num(i) then Right
    else if p.selected == Some(i) then Wrong
    else Faded
  }

  /** What `QuizView` renders. */
  datatype Screen =
    | NoQuestions  // "No quiz questions available."
    | Results(score: nat, total: nat)  // "You scored {score} out of {total}"
    | Crashed  // the render throws a TypeError, or React refuses an object child
    | Asking(number: nat, total: nat, score: nat, question: Value, options: seq<Value>, advance: Option<string>)

  /**
   * Whether the question screen can be drawn for entry `q`: `q.question` and
   * `q.options.map` need `q` to be an object with an `options` array (reading
   * a property of `null` or calling `map` on `undefined` throws), and the
   * question and every option go into the page as React children.
   */
  predicate QuestionRenders(q: Value) {
    && Get(q, "options").Arr?
    && Renderable(Get(q, "question"))
    && forall o :: o in Get(q, "options").items ==> Renderable(o)
  }

  /**
   * The screen for payload `questions` in state `p`. The guard checks only
   * that the payload is a non-empty array; the current entry is used as it is.
   */
  function Render(questions: Value, p: Progress): (s: Screen)
    ensures s == NoQuestions <==> !IsQuiz(questions)
    ensures s.Results? <==> IsQuiz(questions) && p.finished
    ensures s.Results? ==> s.score == p.score && s.total == |questions.items|
    ensures s == Crashed <==>
      IsQuiz(questions) && !p.finished && !QuestionRenders(At(questions.items, p.index))
    ensures s.Asking? ==> s.number == p.index + 1 && s.total == |questions.items| && s.score == p.score
    ensures s.Asking? ==>
      s.question == Get(At(questions.items, p.index), "question") &&
      s.options == Get(At(questions.items, p.index), "options").items
    ensures s.Asking? ==> (s.advance.Some? <==> p.showResult)
    ensures s.Asking? && p.showResult ==>
      s.advance == Some(if p.index + 1 == |questions.items| then "Show Results" else "Next Question")
  {
    if !IsQuiz(questions) then NoQuestions
    else if p.finished then Results(p.score, |questions.items|)
    else
      var q := At(questions.items, p.index);
      if !QuestionRenders(q) then Crashed
      else
        var n := |questions.items|;
        var advance := if p.showResult then Some(if p.index + 1 == n then "Show Results" else "Next Question") else None;
        Asking(p.index + 1, n, p.score, Get(q, "question"), Get(q, "options").items, advance)
  }

  /** A `null` entry passes the payload guard and then makes the render throw. */
  lemma NullQuestionCrashes()
    ensures Render(Arr([Null]), Initial) == Crashed
  {
  }

  /** An entry without `options` passes the payload guard and then makes the render throw. */
  lemma MissingOptionsCrashes()
    ensures Render(Arr([Obj(map["question" := Str("q")])]), Initial) == Crashed
  {
    assert Get(Obj(map["question" := Str("q")]), "options") == Null;
  }

  /** The mounted `QuizView`: its questions prop and its five state hooks. */
  class QuizView {
    const questions: Value
    var index: nat
    var score: nat
    var selectedOption: Option<nat>
    var showResult: bool
    var isFinished: bool

    function State(): Progress
      reads this
    {
      Progress(index, score, selectedOption, showResult, isFinished)
    }

    ghost predicate Valid()
      reads this
    {
      IsQuiz(questions) ==> Inv(|questions.items|, State())
    }

    constructor (questions: Value)
      ensures Valid()
      ensures this.questions == questions && State() == Initial
    {
      this.questions := questions;
      index, score, selectedOption, showResult, isFinished := 0, 0, None, false, false;
    }

    function View(): Screen
      reads this
    {
      Render(questions, State())
    }

    /** `handleOptionClick` (wired to the option buttons of the question screen): ignored once the result shows; otherwise record the pick and score it. */
    method HandleOptionClick(opt: nat)
      requires Valid() && View().Asking?
      modifies this
      ensures Valid()
      ensures State() == Choose(questions.items, old(State()), opt)
    {
      if showResult {
        return;
      }
      selectedOption := Some(opt);
      showResult := true;
      if Get(questions.items[index], "correct_index") == Num(opt) {
        score := score + 1;
      }
    }

    /** `handleNext` (its button shows once the result does): the next question, or the results after the last one. */
    method HandleNext()
      requires Valid() && View().Asking? && showResult
      modifies this
      ensures Valid()
      ensures State() == Advance(|questions.items|, old(State()))
    {
      if index + 1 < |questions.items| {
        index := index + 1;
        selectedOption := None;
        showResult := false;
      } else {
        isFinished := true;
      }
    }

    /** "Restart Quiz" (a button of the results screen): every hook back to its initial value. */
    method Restart()
      requires Valid() && View().Results?
      modifies this
      ensures Valid()
      ensures State() == Initial
    {
      index := 0;
      score := 0;
      selectedOption := None;
      showResult := false;
      isFinished := false;
    }
  }
}
