/** `components/flashcard.tsx`: a deck of flashcards shown one at a time, with a flip
    to the back and an expanded size. */
module FlashcardComponent {
  import opened Text
  import opened Cyclic

  /** One card of the `cards` prop; `pinyin` is optional. */
  datatype Card = Card(front: string, back: string, pinyin: Option<string>, examples: seq<string>)

  /** The component's state over a fixed, non-empty deck: the render reads
      `cards[currentIndex]`, which fails for an empty deck. */
  class Flashcard {
    const cards: seq<Card>
    var currentIndex: nat
    var isFlipped: bool
    var isExpanded: bool

    ghost predicate Valid()
      reads this
    {
      |cards| > 0 && currentIndex < |cards|
    }

    constructor (cards: seq<Card>)
      requires |cards| > 0
      ensures Valid()
      ensures this.cards == cards && currentIndex == 0 && !isFlipped && !isExpanded
    {
      this.cards := cards;
      currentIndex := 0;
      isFlipped := false;
      isExpanded := false;
    }

    /** `handleNext`: show the front of the next card, wrapping to the first. */
    method HandleNext()
      requires Valid()
      modifies this
      ensures Valid()
      ensures currentIndex == Next(old(currentIndex), |cards|)
      ensures !isFlipped && isExpanded == old(isExpanded)
    {
      isFlipped := false;
      currentIndex := (currentIndex + 1) % |cards|;
    }

    /** `handlePrev`: show the front of the previous card, wrapping to the last. */
    method HandlePrev()
      requires Valid()
      modifies this
      ensures Valid()
      ensures currentIndex == Prev(old(currentIndex), |cards|)
      ensures !isFlipped && isExpanded == old(isExpanded)
    {
      isFlipped := false;
      currentIndex := (currentIndex - 1 + |cards|) % |cards|;
    }

    /** `toggleFlip`: only the flip flag changes. */
    method ToggleFlip()
      requires Valid()
      modifies this
      ensures Valid()
      ensures isFlipped == !old(isFlipped)
      ensures currentIndex == old(currentIndex) && isExpanded == old(isExpanded)
    {
      isFlipped := !isFlipped;
    }

    /** `toggleExpand`: only the size flag changes. */
    method ToggleExpand()
      requires Valid()
      modifies this
      ensures Valid()
      ensures isExpanded == !old(isExpanded)
      ensures currentIndex == old(currentIndex) && isFlipped == old(isFlipped)
    {
      isExpanded := !isExpanded;
    }

    /** The card on display. */
    function CurrentCard(): (c: Card)
      requires Valid()
      reads this
      ensures c in cards
    {
      cards[currentIndex]
    }

    /** The header "Card k of n": `k` is a 1-based position within the deck. */
    function Label(): (kn: (nat, nat))
      requires Valid()
      reads this
      ensures 1 <= kn.0 <= kn.1 && kn.1 == |cards|
      ensures cards[kn.0 - 1] == CurrentCard()
    {
      (currentIndex + 1, |cards|)
    }
  }
}
