/**
 * The quick-link tile (components/QuickLinkCard.tsx): a round image that
 * cross-fades through the link's pictures, one every three seconds, when it
 * has more than one.
 */
module QuickLinkCard {
  import opened Cyclic

  /** The interval period, in milliseconds. */
  const TickMs: nat := 3000

  class QuickLinkCard {
    /** `link.imageUrls.length`. */
    const count: nat
    var currentIndex: nat

    /** A single picture never moves; with several, the index names one of them. */
    ghost predicate Valid()
      reads this
    {
      (count <= 1 ==> currentIndex == 0) && (count > 1 ==> currentIndex < count)
    }

    constructor(count: nat)
      ensures this.count == count && currentIndex == 0 && Valid()
    {
      this.count := count;
      currentIndex := 0;
    }

    /** Whether the effect set an interval: only for more than one picture. */
    predicate Running()
      reads this
    {
      count > 1
    }

    /** One interval tick: `(prevIndex + 1) % link.imageUrls.length`; no interval, no tick. */
    method Tick()
      requires Valid()
      modifies this
      ensures Valid()
      ensures Running() ==> currentIndex == Next(old(currentIndex), count)
      ensures !Running() ==> currentIndex == old(currentIndex)
    {
      if count > 1 {
        currentIndex := (currentIndex + 1) % count;
      }
    }

    /** The picture at `index` is the fully opaque one. */
    predicate Visible(index: nat)
      reads this
    {
      index == currentIndex
    }
  }

  /** Exactly one of the pictures is visible at any time. */
  lemma ExactlyOneVisible(card: QuickLinkCard)
    requires card.Valid() && card.count > 0
    ensures card.Visible(card.currentIndex) && card.currentIndex < card.count
    ensures forall i :: 0 <= i < card.count && card.Visible(i) ==> i == card.currentIndex
  {
  }
}
