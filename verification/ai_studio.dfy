/**
 * The AI dress-up studio (components/AIStudioPage.tsx): the pool of pieces
 * the stylist may use (closet and bookmarks, one per id), the outfit it
 * answers with resolved against that pool, the request handler's outcomes,
 * and the image carousel shown while the stylist works.
 */
module AIStudio {
  import opened Types
  import opened Seqs
  import opened Ascii
  import opened Catalog
  import opened Cyclic

  const NoMatchMessage: string :=
    "I couldn't find a matching outfit in your collection. Try a different vibe or add more items to your closet and wishlist!"
  const FuzzyMessage: string := "Sorry, my circuits are a bit fuzzy. Please try again later."

  /** What the stylist service answers; `productIds` may be missing. */
  datatype Generated = Generated(productIds: Option<seq<Id>>, advice: string)

  /** An outfit the page keeps: its ids are present and non-empty. */
  datatype Outfit = Outfit(productIds: seq<Id>, advice: string)

  // ------------------------------------------------------------- derived lists

  /** `availableProducts`: closet then bookmarks, deduplicated through a `Map` keyed by id. */
  function AvailableProducts(closet: seq<Product>, wishlist: seq<Product>): (r: seq<Product>)
    ensures NoDuplicates(Ids(r))
    ensures forall q :: q in r ==> q in closet + wishlist
  {
    UniqueById(closet + wishlist)
  }

  /**
   * Each id of the closet and the bookmarks appears once, at the place of its
   * first occurrence, holding the last product seen with that id.
   */
  lemma AvailableHoldsEachIdOnce(closet: seq<Product>, wishlist: seq<Product>)
    ensures Ids(AvailableProducts(closet, wishlist)) == Distinct(Ids(closet) + Ids(wishlist))
    ensures forall id :: id in Ids(AvailableProducts(closet, wishlist)) <==>
      id in Ids(closet) || id in Ids(wishlist)
    ensures forall q :: q in AvailableProducts(closet, wishlist) ==>
      LastWithId(closet + wishlist, q.id) == Some(q)
  {
    UniqueByIdIds(closet + wishlist);
    IdsAppend(closet, wishlist);
    UniqueByIdKeepsLast(closet + wishlist);
  }

  /** `outfitProducts`: nothing without an outfit, else its ids looked up in the pool. */
  function OutfitProducts(available: seq<Product>, outfit: Option<Outfit>): (r: seq<Product>)
    ensures outfit.None? ==> r == []
    ensures outfit.Some? ==> |r| <= |outfit.value.productIds|
    ensures forall p :: p in r ==> p in available
  {
    match outfit
    case None => []
    case Some(o) => ResolveIds(available, o.productIds)
  }

  /** The outfit shows the pieces of its ids that are in the pool, in its order, and no others. */
  lemma OutfitShowsKnownIds(available: seq<Product>, o: Outfit)
    ensures Ids(OutfitProducts(available, Some(o))) ==
      Filter((id: Id) => HasId(available, id), o.productIds)
  {
    ResolveIdsKeepsKnownIds(available, o.productIds);
  }

  // ------------------------------------------------------------ the request

  /** Where a finished request leaves the outfit and the error. */
  datatype Settlement = Settlement(outfit: Option<Outfit>, error: Option<string>)

  /** The `try`/`catch` of `handleGenerateOutfit` after the call returns or throws. */
  function Settle(reply: Reply<Generated>): (s: Settlement)
    ensures s.outfit.Some? <==> s.error.None?
    ensures s.outfit.Some? <==>
      reply.Returned? && reply.value.productIds.Some? && reply.value.productIds.value != []
    ensures s.outfit.Some? ==>
      s.outfit.value == Outfit(reply.value.productIds.value, reply.value.advice)
    ensures reply.Threw? <==> s.error == Some(FuzzyMessage)
    ensures reply.Returned? && s.outfit.None? ==> s.error == Some(NoMatchMessage)
  {
    match reply
    case Threw => Settlement(None, Some(FuzzyMessage))
    case Returned(g) =>
      if g.productIds.None? || g.productIds.value == [] then Settlement(None, Some(NoMatchMessage))
      else Settlement(Some(Outfit(g.productIds.value, g.advice)), None)
  }

  /** The guard of `handleGenerateOutfit`: a vibe with some non-space character, and a pool to pick from. */
  predicate CanGenerate(vibe: string, available: seq<Product>) {
    Trim(vibe) != [] && available != []
  }

  class AIStudioPage {
    var vibe: string
    var generatedOutfit: Option<Outfit>
    var isLoading: bool
    var error: Option<string>

    /** A kept outfit always has ids. */
    ghost predicate Valid()
      reads this
    {
      generatedOutfit.Some? ==> generatedOutfit.value.productIds != []
    }

    constructor()
      ensures Valid()
      ensures vibe == "" && generatedOutfit.None? && !isLoading && error.None?
    {
      vibe := "";
      generatedOutfit := None;
      isLoading := false;
      error := None;
    }

    /** The text field's `onChange`. */
    method TypeVibe(text: string)
      modifies this
      ensures vibe == text
      ensures generatedOutfit == old(generatedOutfit) && isLoading == old(isLoading) && error == old(error)
    {
      vibe := text;
    }

    /**
     * The synchronous part of `handleGenerateOutfit`: a blank vibe or an empty
     * pool returns at once; otherwise loading starts with error and outfit cleared.
     */
    method Begin(currentVibe: string, available: seq<Product>) returns (started: bool)
      requires Valid()
      modifies this
      ensures Valid()
      ensures started <==> CanGenerate(currentVibe, available)
      ensures !started ==>
        generatedOutfit == old(generatedOutfit) && isLoading == old(isLoading) && error == old(error)
      ensures started ==> isLoading && error.None? && generatedOutfit.None?
      ensures vibe == old(vibe)
    {
      if Trim(currentVibe) == [] || |available| == 0 {
        return false;
      }
      isLoading := true;
      error := None;
      generatedOutfit := None;
      return true;
    }

    /** The awaited call returns or throws; `finally` ends loading. */
    method Complete(reply: Reply<Generated>)
      requires Valid()
      modifies this
      ensures Valid()
      ensures !isLoading
      ensures Settle(reply).outfit.Some? ==>
        generatedOutfit == Settle(reply).outfit && error == old(error)
      ensures Settle(reply).outfit.None? ==>
        generatedOutfit == old(generatedOutfit) && error == Settle(reply).error
      ensures vibe == old(vibe)
    {
      match reply {
        case Threw =>
          error := Some(FuzzyMessage);
        case Returned(g) =>
          if g.productIds.None? || |g.productIds.value| == 0 {
            error := Some(NoMatchMessage);
          } else {
            generatedOutfit := Some(Outfit(g.productIds.value, g.advice));
          }
      }
      isLoading := false;
    }

    /**
     * `handleGenerateOutfit` from start to finish, the service answering
     * `reply`: nothing changes when the guard fails, and otherwise the page
     * ends not loading, holding exactly what `Settle(reply)` says.
     */
    method HandleGenerateOutfit(currentVibe: string, available: seq<Product>, reply: Reply<Generated>)
      requires Valid()
      modifies this
      ensures Valid()
      ensures !CanGenerate(currentVibe, available) ==>
        generatedOutfit == old(generatedOutfit) && isLoading == old(isLoading) && error == old(error)
      ensures CanGenerate(currentVibe, available) ==>
        !isLoading && generatedOutfit == Settle(reply).outfit && error == Settle(reply).error
      ensures vibe == old(vibe)
    {
      var started := Begin(currentVibe, available);
      if started {
        Complete(reply);
      }
    }

    /** `handleFormSubmit`: generate for the typed vibe. */
    method SubmitForm(available: seq<Product>, reply: Reply<Generated>)
      requires Valid()
      modifies this
      ensures Valid()
      ensures !CanGenerate(vibe, available) ==>
        generatedOutfit == old(generatedOutfit) && isLoading == old(isLoading) && error == old(error)
      ensures CanGenerate(vibe, available) ==>
        !isLoading && generatedOutfit == Settle(reply).outfit && error == Settle(reply).error
      ensures vibe == old(vibe)
    {
      HandleGenerateOutfit(vibe, available, reply);
    }

    /** `handleVibeSuggestionClick`: the suggestion fills the field and is generated at once. */
    method SuggestVibe(suggested: string, available: seq<Product>, reply: Reply<Generated>)
      requires Valid()
      modifies this
      ensures Valid()
      ensures vibe == suggested
      ensures !CanGenerate(suggested, available) ==>
        generatedOutfit == old(generatedOutfit) && isLoading == old(isLoading) && error == old(error)
      ensures CanGenerate(suggested, available) ==>
        !isLoading && generatedOutfit == Settle(reply).outfit && error == Settle(reply).error
    {
      vibe := suggested;
      HandleGenerateOutfit(suggested, available, reply);
    }

    /** The Generate button is disabled while loading or while the vibe is blank. */
    predicate GenerateDisabled()
      reads this
    {
      isLoading || Trim(vibe) == []
    }

    /** The outfit panel: not loading, no error, an outfit. */
    predicate OutfitShown()
      reads this
    {
      !isLoading && error.None? && generatedOutfit.Some?
    }

    /** The "Your Outfit Awaits" placeholder: not loading, no error, no outfit. */
    predicate PlaceholderShown()
      reads this
    {
      !isLoading && error.None? && generatedOutfit.None?
    }
  }

  // ------------------------------------------------------------- the carousel

  /**
   * `LoadingStudio`: while the stylist works it cycles through the pool's
   * images, one every 150 ms; with an empty pool no interval is set.
   */
  class LoadingStudio {
    /** `products.length`. */
    const count: nat
    var currentIndex: nat

    ghost predicate Valid()
      reads this
    {
      count == 0 || currentIndex < count
    }

    constructor(count: nat)
      ensures this.count == count && currentIndex == 0 && Valid()
    {
      this.count := count;
      currentIndex := 0;
    }

    /** Whether the effect set an interval at all. */
    predicate Running()
      reads this
    {
      count > 0
    }

    /** One interval tick: `(prevIndex + 1) % products.length`; no interval, no tick. */
    method Tick()
      requires Valid()
      modifies this
      ensures Valid()
      ensures Running() ==> currentIndex == Next(old(currentIndex), count)
      ensures !Running() ==> currentIndex == old(currentIndex)
    {
      if count > 0 {
        currentIndex := (currentIndex + 1) % count;
      }
    }

    /** The image at `index` is the half-visible one. */
    predicate Highlighted(index: nat)
      reads this
    {
      index == currentIndex
    }
  }
}
