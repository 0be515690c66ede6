/**
 * The flashcard navigator of the Study Lab (`FlashcardsView`): a circular
 * index over the deck and a flag saying whether the card shows its answer.
 */
module Flashcards {
  import opened Json

  /** What `FlashcardsView` renders. */
  datatype Screen =
    | NoFlashcards    // "No flashcards available."
    | InvalidFlashcard  // "Invalid flashcard data."
    | Crashed         // the render throws: a question or answer React cannot render
    | Card(question: Value, answer: Value, flipped: bool, position: nat, total: nat)

  /** The deck guard: the payload is a truthy, non-empty array. */
  predicate IsDeck(cards: Value) {
    Truthy(cards) && cards.Arr? && |cards.items| != 0
  }

  /** The index `handleNext` moves to. */
  function Next(i: nat, n: nat): (r: nat)
    requires n > 0
    ensures r < n
  {
    (i + 1) % n
  }

  /** The index `handlePrev` moves to. */
  function Prev(i: nat, n: nat): (r: nat)
    requires n > 0
    ensures r < n
  {
    (i - 1 + n) % n
  }

  /** The card guard of `FlashcardsView`: the current card exists and has a truthy question and answer. */
  predicate CardPasses(cards: Value, index: nat) {
    IsDeck(cards) && index < |cards.items| &&
    Truthy(Get(cards.items[index], "question")) && Truthy(Get(cards.items[index], "answer"))
  }

  /**
   * The screen for deck `cards` at `index`, face up or down. The question
   * and answer are rendered as `{currentCard.question}` and
   * `{currentCard.answer}` without a check of their kind.
   */
  function Render(cards: Value, index: nat, flipped: bool): (s: Screen)
    ensures s == NoFlashcards <==> !IsDeck(cards)
    ensures s == InvalidFlashcard <==> IsDeck(cards) && !CardPasses(cards, index)
    ensures s == Crashed <==>
      CardPasses(cards, index) &&
      !(Renderable(Get(cards.items[index], "question")) && Renderable(Get(cards.items[index], "answer")))
    ensures s.Card? <==>
      CardPasses(cards, index) &&
      Renderable(Get(cards.items[index], "question")) && Renderable(Get(cards.items[index], "answer"))
    ensures s.Card? ==>
      s.question == Get(cards.items[index], "question") &&
      s.answer == Get(cards.items[index], "answer") &&
      s.flipped == flipped && s.position == index + 1 && s.total == |cards.items|
  {
    if !IsDeck(cards) then NoFlashcards
    else
      var card := At(cards.items, index);
      if !Truthy(card) || !Truthy(Get(card, "question")) || !Truthy(Get(card, "answer")) then
        InvalidFlashcard
      else if !Renderable(Get(card, "question")) || !Renderable(Get(card, "answer")) then
        Crashed
      else
        Card(Get(card, "question"), Get(card, "answer"), flipped, index + 1, |cards.items|)
  }

  /** A card whose question is an object passes the card guard and then makes the render throw. */
  lemma ObjectQuestionCrashes()
    ensures Render(Arr([Obj(map["question" := Obj(map[]), "answer" := Str("y")])]), 0, false) == Crashed
  {
    var card := Obj(map["question" := Obj(map[]), "answer" := Str("y")]);
    assert Get(card, "question") == Obj(map[]);
    assert Get(card, "answer") == Str("y");
  }

  /** Navigation wraps at both ends and moves by one everywhere else. */
  lemma NavigationWraps(i: nat, n: nat)
    requires i < n
    ensures Next(i, n) == if i == n - 1 then 0 else i + 1
    ensures Prev(i, n) == if i == 0 then n - 1 else i - 1
  {
    if i == n - 1 {
      ModSelf(n);
    } else {
      ModBelow(i + 1, n);
    }
    if i == 0 {
      ModBelow(n - 1, n);
    } else {
      ModAbove(i - 1, n);
    }
  }

  lemma ModSelf(n: nat)
    requires n > 0
    ensures n % n == 0
  {
  }

  lemma ModBelow(a: nat, n: nat)
    requires a < n
    ensures a % n == a
  {
  }

  lemma ModAbove(a: nat, n: nat)
    requires a < n
    ensures (a + n) % n == a
  {
  }

  /** `handlePrev` undoes `handleNext`, and the other way round. */
  lemma PrevUndoesNext(i: nat, n: nat)
    requires i < n
    ensures Prev(Next(i, n), n) == i
    ensures Next(Prev(i, n), n) == i
  {
    NavigationWraps(i, n);
    NavigationWraps(Next(i, n), n);
    NavigationWraps(Prev(i, n), n);
  }

  /** The index after `k` presses of "next" from `i`. */
  function Forward(i: nat, k: nat, n: nat): (r: nat)
    requires n > 0
    ensures r < n || (k == 0 && r == i)
  {
    if k == 0 then i else Next(Forward(i, k - 1, n), n)
  }

  /** The index after `k` presses of "previous" from `i`. */
  function Backward(i: nat, k: nat, n: nat): (r: nat)
    requires n > 0
    ensures r < n || (k == 0 && r == i)
  {
    if k == 0 then i else Prev(Backward(i, k - 1, n), n)
  }

  /** Within one lap, `k` presses of "next" move `k` cards on, wrapping once past the end. */
  lemma {:induction false} ForwardWithinLap(i: nat, k: nat, n: nat)
    requires i < n && k <= n
    ensures Forward(i, k, n) == if i + k < n then i + k else i + k - n
  {
    if k > 0 {
      ForwardWithinLap(i, k - 1, n);
      NavigationWraps(Forward(i, k - 1, n), n);
    }
  }

  /** Within one lap, `k` presses of "previous" move `k` cards back, wrapping once past the start. */
  lemma {:induction false} BackwardWithinLap(i: nat, k: nat, n: nat)
    requires i < n && k <= n
    ensures Backward(i, k, n) == if k <= i then i - k else i - k + n
  {
    if k > 0 {
      BackwardWithinLap(i, k - 1, n);
      NavigationWraps(Backward(i, k - 1, n), n);
    }
  }

  /** Going round the deck once, in either direction, returns to the same card. */
  lemma FullCircle(i: nat, n: nat)
    requires i < n
    ensures Forward(i, n, n) == i
    ensures Backward(i, n, n) == i
  {
    ForwardWithinLap(i, n, n);
    BackwardWithinLap(i, n, n);
  }

  /** The mounted `FlashcardsView`: its deck prop and its two state hooks. */
  class FlashcardsView {
    const cards: Value
    var index: nat
    var isFlipped: bool

    /** On a deck, the index always names one of its cards. */
    ghost predicate Valid()
      reads this
    {
      IsDeck(cards) ==> index < |cards.items|
    }

    /** Mounting: first card, question side up. */
    constructor (cards: Value)
      ensures Valid()
      ensures this.cards == cards && index == 0 && !isFlipped
    {
      this.cards := cards;
      index := 0;
      isFlipped := false;
    }

    function View(): Screen
      reads this
    {
      Render(cards, index, isFlipped)
    }

    /** `handleNext` (its button is drawn only under a shown card): turn the card face down, then move one card on. */
    method HandleNext()
      requires Valid() && View().Card?
      modifies this
      ensures Valid()
      ensures !isFlipped
      ensures index == Next(old(index), |cards.items|)
    {
      isFlipped := false;
      index := Next(index, |cards.items|);
    }

    /** `handlePrev` (its button is drawn only under a shown card): turn the card face down, then move one card back. */
    method HandlePrev()
      requires Valid() && View().Card?
      modifies this
      ensures Valid()
      ensures !isFlipped
      ensures index == Prev(old(index), |cards.items|)
    {
      isFlipped := false;
      index := Prev(index, |cards.items|);
    }

    /** A click on the card (only rendered for a valid card) turns it over. */
    method Flip()
      requires Valid() && View().Card?
      modifies this
      ensures Valid()
      ensures isFlipped == !old(isFlipped) && index == old(index)
      ensures View().Card? && View().flipped == isFlipped
    {
      isFlipped := !isFlipped;
    }
  }
}
