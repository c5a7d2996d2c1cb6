/** The study session (`class FlashcardApp` in script.js): the deck, the
    position in it, the flip state and the last touch coordinates, with the
    operations the buttons, keys and swipes trigger. */
module Session {
  import opened Wrappers
  import opened Cards

  /** Minimum horizontal distance of a swipe (`swipeThreshold`). */
  const SWIPE_THRESHOLD: real := 50.0

  /** What an input event asks the session to do. */
  datatype Action = Ignore | Next | Previous | Flip

  /** The part of the session state that navigation and flipping change. */
  datatype View = View(currentIndex: int, isFlipped: bool)

  /** The text `updateDisplay` writes to the two faces. */
  datatype Face = Face(front: string, back: string)

  /** The utterance `playAudio` hands to the speech engine. */
  datatype Utterance = Utterance(text: string, lang: string, rate: real, pitch: real)

  /** A position is valid when it indexes a card, or is 0 for an empty deck. */
  predicate IndexInDeck(i: int, n: nat) {
    if n == 0 then i == 0 else 0 <= i < n
  }

  /** `currentIndex++`, back to 0 past the last card. */
  function NextIndex(i: int, n: nat): (j: int)
    requires 0 <= i < n
    ensures 0 <= j < n
    ensures j == (i + 1) % n
  {
    if i + 1 >= n then 0 else i + 1
  }

  /** `currentIndex--`, on to the last card before the first. */
  function PreviousIndex(i: int, n: nat): (j: int)
    requires 0 <= i < n
    ensures 0 <= j < n
    ensures j == (i - 1 + n) % n
  {
    if i - 1 < 0 then n - 1 else i - 1
  }

  /** The effect of one action on a deck of `n` cards. */
  function Step(v: View, n: nat, a: Action): (w: View)
    requires IndexInDeck(v.currentIndex, n)
    ensures IndexInDeck(w.currentIndex, n)
    ensures a == Flip ==> w == View(v.currentIndex, !v.isFlipped)
    ensures (a == Next || a == Previous) && n > 0 ==> !w.isFlipped
    ensures a == Ignore || (n == 0 && a != Flip) ==> w == v
  {
    match a
    case Ignore => v
    case Flip => View(v.currentIndex, !v.isFlipped)
    case Next => if n == 0 then v else View(NextIndex(v.currentIndex, n), false)
    case Previous => if n == 0 then v else View(PreviousIndex(v.currentIndex, n), false)
  }

  /** The effect of a sequence of actions, in order. */
  function Run(v: View, n: nat, actions: seq<Action>): (w: View)
    requires IndexInDeck(v.currentIndex, n)
    ensures IndexInDeck(w.currentIndex, n)
    decreases |actions|
  {
    if |actions| == 0 then v else Run(Step(v, n, actions[0]), n, actions[1..])
  }

  /** `k` copies of the same action. */
  function Repeat(a: Action, k: nat): (s: seq<Action>)
    ensures |s| == k && forall i :: 0 <= i < k ==> s[i] == a
  {
    if k == 0 then [] else [a] + Repeat(a, k - 1)
  }

  /** Going back undoes going forward (and vice versa); both leave the new
      card unflipped. */
  lemma NextPreviousInverse(v: View, n: nat)
    requires n > 0 && IndexInDeck(v.currentIndex, n)
    ensures Step(Step(v, n, Next), n, Previous) == View(v.currentIndex, false)
    ensures Step(Step(v, n, Previous), n, Next) == View(v.currentIndex, false)
  {
  }

  /** Flipping twice restores the view. */
  lemma FlipTwice(v: View, n: nat)
    requires IndexInDeck(v.currentIndex, n)
    ensures Step(Step(v, n, Flip), n, Flip) == v
  {
  }

  /** `k` presses of "next" move `k` places round the deck. */
  lemma {:induction false} NextCycles(v: View, n: nat, k: nat)
    requires n > 0 && IndexInDeck(v.currentIndex, n)
    ensures Run(v, n, Repeat(Next, k)).currentIndex == (v.currentIndex + k) % n
    ensures k > 0 ==> !Run(v, n, Repeat(Next, k)).isFlipped
    decreases k
  {
    var i := v.currentIndex;
    if k == 0 {
      ModUnique(i, n, 0, i);
    } else {
      var w := Step(v, n, Next);
      RunRepeat(v, n, Next, k);
      NextCycles(w, n, k - 1);
      NextShift(i, n, k - 1);
    }
  }

  /** Running `k > 0` copies of an action is one step followed by `k - 1`. */
  lemma RunRepeat(v: View, n: nat, a: Action, k: nat)
    requires k > 0 && IndexInDeck(v.currentIndex, n)
    ensures Run(v, n, Repeat(a, k)) == Run(Step(v, n, a), n, Repeat(a, k - 1))
  {
  }

  lemma NextShift(i: int, n: nat, x: nat)
    requires 0 <= i < n
    ensures (NextIndex(i, n) + x) % n == (i + 1 + x) % n
  {
    if i + 1 == n {
      ModShift(x, n);
    }
  }

  lemma ModShift(x: nat, n: nat)
    requires n > 0
    ensures (x + n) % n == x % n
  {
    var q, r := x / n, x % n;
    assert x == q * n + r;
    assert x + n == (q + 1) * n + r;
    ModUnique(x + n, n, q + 1, r);
  }

  /** Euclidean remainders are unique. */
  lemma ModUnique(a: int, n: int, q: int, r: int)
    requires n > 0 && 0 <= r < n && a == q * n + r
    ensures a % n == r
  {
    var d := q - a / n;
    assert d * n == a % n - r;
    MultipleBounds(d, n);
  }

  /** A non-zero multiple of `n` is at least `n` away from 0. */
  lemma MultipleBounds(d: int, n: int)
    requires n > 0
    ensures d > 0 ==> d * n >= n
    ensures d < 0 ==> d * n <= -n
  {
  }

  /** Going forward once per card returns to the starting card. */
  lemma FullCircle(v: View, n: nat)
    requires n > 0 && IndexInDeck(v.currentIndex, n)
    ensures Run(v, n, Repeat(Next, n)).currentIndex == v.currentIndex
  {
    NextCycles(v, n, n);
    ModShift(v.currentIndex, n);
    ModUnique(v.currentIndex, n, 0, v.currentIndex);
  }

  /** `handleSwipe`: a horizontal move longer than the threshold navigates,
      leftwards to the next card and rightwards to the previous one. */
  function SwipeAction(touchStartX: real, touchEndX: real): (a: Action)
    ensures a == Next <==> touchStartX - touchEndX > SWIPE_THRESHOLD
    ensures a == Previous <==> touchStartX - touchEndX < -SWIPE_THRESHOLD
    ensures a == Ignore <==> -SWIPE_THRESHOLD <= touchStartX - touchEndX <= SWIPE_THRESHOLD
  {
    var diff := touchStartX - touchEndX;
    if Abs(diff) > SWIPE_THRESHOLD then
      if diff > 0.0 then Next else Previous
    else Ignore
  }

  function Abs(x: real): real {
    if x < 0.0 then -x else x
  }

  /** The `keydown` switch on `e.code`. */
  function KeyAction(code: string): (a: Action)
    ensures a == Previous <==> code == "ArrowLeft"
    ensures a == Next <==> code == "ArrowRight"
    ensures a == Flip <==> code == "Space"
    ensures a != Ignore <==> code in {"ArrowLeft", "ArrowRight", "Space"}
  {
    if code == "ArrowLeft" then Previous
    else if code == "ArrowRight" then Next
    else if code == "Space" then Flip
    else Ignore
  }

  class FlashcardApp {
    var cards: seq<Card>
    var currentIndex: int
    var isFlipped: bool
    var touchStartX: real
    var touchEndX: real
    /** How many times the display has been refreshed. */
    ghost var refreshes: nat

    ghost predicate Valid()
      reads this
    {
      IndexInDeck(currentIndex, |cards|)
    }

    function Snapshot(): View
      reads this
    {
      View(currentIndex, isFlipped)
    }

    /** A new session starts on the first card, unflipped, and shows it.
        With an empty deck the source's first refresh fails; no refresh is
        counted then. */
    constructor (cards: seq<Card>)
      ensures Valid()
      ensures this.cards == cards && Snapshot() == View(0, false)
      ensures touchStartX == 0.0 && touchEndX == 0.0
      ensures refreshes == if |cards| > 0 then 1 else 0
    {
      this.cards := cards;
      currentIndex := 0;
      isFlipped := false;
      touchStartX := 0.0;
      touchEndX := 0.0;
      refreshes := 0;
      new;
      var face := UpdateDisplay();
    }

    /** `updateDisplay`: shows the current card and resets the flip. On an
        empty deck there is no card to show (the source throws reading its
        `front`) and nothing changes. */
    method UpdateDisplay() returns (face: Option<Face>)
      requires Valid()
      modifies this`isFlipped, this`refreshes
      ensures Valid()
      ensures face.Some? <==> |cards| > 0
      ensures face.Some? ==> face.value == Face(cards[currentIndex].front, cards[currentIndex].back)
      ensures face.Some? ==> !isFlipped && refreshes == old(refreshes) + 1
      ensures face.None? ==> isFlipped == old(isFlipped) && refreshes == old(refreshes)
    {
      if |cards| == 0 {
        return None;
      }
      var currentCard := cards[currentIndex];
      face := Some(Face(currentCard.front, currentCard.back));
      isFlipped := false;
      refreshes := refreshes + 1;
    }

    /** `nextCard`. */
    method NextCard()
      requires Valid()
      modifies this`currentIndex, this`isFlipped, this`refreshes
      ensures Valid()
      ensures Snapshot() == Step(old(Snapshot()), |cards|, Next)
      ensures refreshes == old(refreshes) + if |cards| > 0 then 1 else 0
    {
      if |cards| == 0 {
        return;
      }
      currentIndex := currentIndex + 1;
      if currentIndex >= |cards| {
        currentIndex := 0;
      }
      var face := UpdateDisplay();
    }

    /** `previousCard`. */
    method PreviousCard()
      requires Valid()
      modifies this`currentIndex, this`isFlipped, this`refreshes
      ensures Valid()
      ensures Snapshot() == Step(old(Snapshot()), |cards|, Previous)
      ensures refreshes == old(refreshes) + if |cards| > 0 then 1 else 0
    {
      if |cards| == 0 {
        return;
      }
      currentIndex := currentIndex - 1;
      if currentIndex < 0 {
        currentIndex := |cards| - 1;
      }
      var face := UpdateDisplay();
    }

    /** `flipCard`. */
    method FlipCard()
      requires Valid()
      modifies this`isFlipped
      ensures Valid()
      ensures Snapshot() == Step(old(Snapshot()), |cards|, Flip)
    {
      isFlipped := !isFlipped;
    }

    /** The `touchstart` handler. */
    method TouchStart(screenX: real)
      modifies this`touchStartX
      ensures touchStartX == screenX
    {
      touchStartX := screenX;
    }

    /** `handleSwipe`. */
    method HandleSwipe()
      requires Valid()
      modifies this`currentIndex, this`isFlipped, this`refreshes
      ensures Valid()
      ensures Snapshot() == Step(old(Snapshot()), |cards|, SwipeAction(touchStartX, touchEndX))
      ensures refreshes == old(refreshes) +
                if |cards| > 0 && SwipeAction(touchStartX, touchEndX) != Ignore then 1 else 0
    {
      var diff := touchStartX - touchEndX;
      if Abs(diff) > SWIPE_THRESHOLD {
        if diff > 0.0 {
          NextCard();
        } else {
          PreviousCard();
        }
      }
    }

    /** The `touchend` handler: records the end point, then classifies the
        swipe. */
    method TouchEnd(screenX: real)
      requires Valid()
      modifies this`touchEndX, this`currentIndex, this`isFlipped, this`refreshes
      ensures Valid() && touchEndX == screenX
      ensures Snapshot() == Step(old(Snapshot()), |cards|, SwipeAction(touchStartX, screenX))
      ensures refreshes == old(refreshes) +
                if |cards| > 0 && SwipeAction(touchStartX, screenX) != Ignore then 1 else 0
    {
      touchEndX := screenX;
      HandleSwipe();
    }

    /** The `keydown` listener; `preventDefault` says whether the browser's
        default action is suppressed. */
    method KeyDown(code: string) returns (preventDefault: bool)
      requires Valid()
      modifies this`currentIndex, this`isFlipped, this`refreshes
      ensures Valid()
      ensures preventDefault <==> KeyAction(code) != Ignore
      ensures Snapshot() == Step(old(Snapshot()), |cards|, KeyAction(code))
      ensures refreshes == old(refreshes) +
                if |cards| > 0 && KeyAction(code) in {Next, Previous} then 1 else 0
    {
      preventDefault := true;
      match code
      case "ArrowLeft" => PreviousCard();
      case "ArrowRight" => NextCard();
      case "Space" => FlipCard();
      case _ => preventDefault := false;
    }

    /** `playAudio`: the English text of the current card, spoken in
        American English slightly slower than normal; nothing is spoken when
        that text is empty or speech synthesis is unavailable. */
    method PlayAudio(speechAvailable: bool) returns (spoken: Option<Utterance>)
      requires Valid() && |cards| > 0
      ensures spoken.Some? <==> speechAvailable && cards[currentIndex].english != ""
      ensures spoken.Some? ==> spoken.value == Utterance(cards[currentIndex].english, "en-US", 0.9, 1.0)
    {
      var currentCard := cards[currentIndex];
      var textToSpeak := currentCard.english;
      if textToSpeak != "" && speechAvailable {
        spoken := Some(Utterance(textToSpeak, "en-US", 0.9, 1.0));
      } else {
        spoken := None;
      }
    }
  }
}
