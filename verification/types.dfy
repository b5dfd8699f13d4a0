/**
 * Record shapes of the storefront (types.ts), as Dafny values.
 * Prices are integer minor units (hundredths of the currency unit) instead of
 * JavaScript numbers, so 68.00 is 6800 and 79.90 is 7990.
 */
module Types {

  /** An optional value: JavaScript's `T | null` / `T | undefined`. */
  datatype Option<+T> = None | Some(value: T)

  /** Identifiers of products, users, reels and messages. */
  type Id = string

  /** A product size is either a label ('M', 'US 8') or a number (28, 8). */
  datatype Size = SizeLabel(text: string) | SizeNumber(n: int)

  datatype Product = Product(
    id: Id,
    name: string,
    brand: string,
    price: int,
    imageUrl: string,
    color: Option<string>,
    size: Option<Size>)

  datatype Playlist = Playlist(
    id: Id,
    title: string,
    description: string,
    coverUrl: string,
    productIds: seq<Id>)

  datatype Reel = Reel(id: Id, userName: string, thumbnailUrl: string, fullImageUrl: string)

  datatype QuickLink = QuickLink(id: Id, title: string, imageUrls: seq<string>, productIds: seq<Id>)

  datatype Sizes = Sizes(tops: string, denims: string, dresses: string)

  datatype User = User(name: string, email: string, phone: string, avatarUrl: string, sizes: Sizes)

  datatype ChatUser = ChatUser(id: Id, name: string, avatarUrl: string)

  datatype ChatMessage = ChatMessage(
    id: Id,
    senderId: Id,
    text: Option<string>,
    imageUrl: Option<string>,
    timestamp: string)

  datatype Genre = Genre(id: Id, name: string, color: string, imageUrl: string, productIds: seq<Id>)

  /** A browser `File`, as far as the pages look at it. */
  datatype File = File(name: string, mimeType: string)

  /** What an awaited call into the AI provider produced: a value, or a thrown error. */
  datatype Reply<+T> = Returned(value: T) | Threw
}
