/** Turning loaded records into cards: the per-record `map` inside
    `fetchCards` (script.js). */
module Cards {
  import opened Wrappers
  import Shuffler

  /** One parsed JSON record. Each field is `None` when the key is absent
      (or `null`), since `??` falls back only in that case. */
  datatype Record = Record(
    question: Option<string>,
    slovenian: Option<string>,
    answer: Option<string>,
    english: Option<string>)

  /** A display-ready card; `english` is the text spoken by the audio
      button, `isSloToEng` the direction draw. */
  datatype Card = Card(id: int, front: string, back: string, english: string, isSloToEng: bool)

  /** A term pair with the direction forgotten. */
  datatype TermPair = TermPair(slovenian: string, english: string)

  /** JavaScript's `a ?? fallback` on an optional string. */
  function Nullish(a: Option<string>, fallback: string): string {
    match a
    case Some(v) => v
    case None => fallback
  }

  /** `item.question ?? item.slovenian ?? ""`. */
  function SloSide(r: Record): (s: string)
    ensures r.question.Some? ==> s == r.question.value
    ensures r.question.None? && r.slovenian.Some? ==> s == r.slovenian.value
    ensures r.question.None? && r.slovenian.None? ==> s == ""
  {
    Nullish(r.question, Nullish(r.slovenian, ""))
  }

  /** `item.answer ?? item.english ?? ""`. */
  function EngSide(r: Record): (s: string)
    ensures r.answer.Some? ==> s == r.answer.value
    ensures r.answer.None? && r.english.Some? ==> s == r.english.value
    ensures r.answer.None? && r.english.None? ==> s == ""
  {
    Nullish(r.answer, Nullish(r.english, ""))
  }

  function RecordPair(r: Record): TermPair {
    TermPair(SloSide(r), EngSide(r))
  }

  /** The term pair a card shows, read back from its two faces. */
  function CardPair(c: Card): TermPair {
    TermPair(if c.isSloToEng then c.front else c.back, if c.isSloToEng then c.back else c.front)
  }

  /** The card built for record `r` at position `index` with direction draw
      `isSloToEng`. */
  function MakeCard(r: Record, index: int, isSloToEng: bool): (c: Card)
    ensures c.id == index && c.isSloToEng == isSloToEng
    ensures c.english == EngSide(r)
    ensures isSloToEng ==> c.front == SloSide(r) && c.back == EngSide(r)
    ensures !isSloToEng ==> c.front == EngSide(r) && c.back == SloSide(r)
    ensures CardPair(c) == RecordPair(r)
  {
    var valSlo := SloSide(r);
    var valEng := EngSide(r);
    Card(index, if isSloToEng then valSlo else valEng, if isSloToEng then valEng else valSlo, valEng, isSloToEng)
  }

  /** The direction draw only swaps the two faces; the id and the spoken
      text do not depend on it. */
  lemma DirectionSwapsFaces(r: Record, index: int)
    ensures MakeCard(r, index, true).front == MakeCard(r, index, false).back
    ensures MakeCard(r, index, true).back == MakeCard(r, index, false).front
    ensures MakeCard(r, index, true).english == MakeCard(r, index, false).english
    ensures MakeCard(r, index, true).id == MakeCard(r, index, false).id
  {
  }

  /** `shuffled.map((item, index) => ...)`, with `directions[index]` the
      draw `Math.random() < 0.5` made for that record. */
  function BuildCards(shuffled: seq<Record>, directions: seq<bool>): (cards: seq<Card>)
    requires |directions| == |shuffled|
    ensures |cards| == |shuffled|
    ensures forall k :: 0 <= k < |cards| ==> cards[k].id == k
    ensures forall k :: 0 <= k < |cards| ==> cards[k].isSloToEng == directions[k]
    ensures forall k :: 0 <= k < |cards| ==> cards[k].english == EngSide(shuffled[k])
    ensures forall k :: 0 <= k < |cards| && directions[k] ==>
              cards[k].front == SloSide(shuffled[k]) && cards[k].back == EngSide(shuffled[k])
    ensures forall k :: 0 <= k < |cards| && !directions[k] ==>
              cards[k].front == EngSide(shuffled[k]) && cards[k].back == SloSide(shuffled[k])
    ensures forall k :: 0 <= k < |cards| ==> CardPair(cards[k]) == RecordPair(shuffled[k])
  {
    seq(|shuffled|, k requires 0 <= k < |shuffled| => MakeCard(shuffled[k], k, directions[k]))
  }

  /** The term pairs of a deck built from `records` are those of `records`
      in the order the swaps `js` give them, whatever the directions. */
  lemma {:induction false} DeckPairs(records: seq<Record>, js: seq<int>, directions: seq<bool>)
    requires |js| == |records| && Shuffler.ValidSwaps(js) && |directions| == |records|
    ensures Shuffler.MapSeq(CardPair, BuildCards(Shuffler.ShuffledWith(records, js), directions))
         == Shuffler.ShuffledWith(Shuffler.MapSeq(RecordPair, records), js)
  {
    var shuffled := Shuffler.ShuffledWith(records, js);
    var cards := BuildCards(shuffled, directions);
    assert Shuffler.MapSeq(CardPair, cards) == Shuffler.MapSeq(RecordPair, shuffled);
    Shuffler.ShuffleMap(RecordPair, records, js);
  }

  /** A built deck holds exactly the loaded term pairs, each as often as it
      was loaded: nothing is lost, duplicated or altered by the shuffle. */
  lemma DeckHoldsLoadedPairs(records: seq<Record>, js: seq<int>, directions: seq<bool>)
    requires |js| == |records| && Shuffler.ValidSwaps(js) && |directions| == |records|
    ensures multiset(Shuffler.MapSeq(CardPair, BuildCards(Shuffler.ShuffledWith(records, js), directions)))
         == multiset(Shuffler.MapSeq(RecordPair, records))
  {
    DeckPairs(records, js, directions);
    Shuffler.ShufflePermutes(Shuffler.MapSeq(RecordPair, records), js);
  }
}
