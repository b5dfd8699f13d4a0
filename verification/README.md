# Arkaenia storefront: a Dafny model of its state logic

This project models the state logic of a React fashion storefront. Its centre
is the AI model page's image request: `handleGenerateModel` makes at most five
attempts. It finds the first image part of a response. It recognises a
`RESOURCE_EXHAUSTED` error and reads the provider's `RetryInfo` hint. It waits
either the hinted seconds or an exponential back-off of 2000·2^k ms, each with
bounded jitter, and announces every wait with a progress message. It ends with
either an image or a fixed error.

The model also covers the storefront's other state logic:

- the shell's cart, wishlist, navigation, payment and reel handlers;
- the checkout totals and its modal routing;
- the year-in-review analytics and its slides;
- text search and search by image;
- the AI outfit studio;
- package tracking;
- the profile form;
- group chat;
- the product card, the header, the quick-link carousel and the reel upload dialog.

Layout:

- One module per component file: `AIModel`, `App`, `Checkout`, `Wrapped`,
  `Search`, `AIStudio`, `VisualSearch`, `TrackPackage`, `Profile`, `Chat`,
  `ProductCard`, `Header`, `QuickLinkCard` and `UploadReel`.
- Shared modules:
  - `Types` holds the record shapes of types.ts;
  - `Constants` holds fixtures from constants.ts;
  - `Seqs` holds generic list helpers;
  - `Ascii` models `trim`, `toLowerCase`, `includes`, `startsWith`, `String(n)` and `parseInt` over ASCII;
  - `Catalog` models `find`, the `map(find).filter(Boolean)` resolution and the `Map` dedup by id;
  - `Cyclic` is the `(i + 1) % n` carousel step.

How each kind of source code is modelled:

- A component whose handlers set state becomes a class. Its fields are the
  state, and its methods are the handlers, each stating the whole new state.
- An `async` handler is split at its `await`. `Begin` is the synchronous part.
  `Complete(reply)` is the awaited result plus the `finally` block. A third
  method joins the two.
- A timer callback is a step method of its own.
- The clock, `Math.random()`, object URLs, data URLs and every provider call
  are parameters: a `Reply` (returned value or thrown error) or, for the retry
  loop, a script of per-attempt outcomes and jitter draws.
- Prices are integer minor units (15.00 is 1500).

## Model

| member | source | states |
|---|---|---|
| AIModel.PartsOf | components/AIModelPage.tsx:119 | missing candidates or an empty candidate list give no parts |
| AIModel.FirstInlineData | components/AIModelPage.tsx:119-127 | no image exactly when no part carries `inlineData` |
| AIModel.FirstInlineDataIsFirst | components/AIModelPage.tsx:119-126 | the image is the first part with `inlineData`; later parts are ignored |
| AIModel.ImageUrl | components/AIModelPage.tsx:122 | the URL starts with `data:image/png;base64,` and the rest is exactly the data |
| AIModel.FindRetryInfo | components/AIModelPage.tsx:143-145 | a found detail is in the list and has the RetryInfo type; none found means no detail has it |
| AIModel.FindRetryInfoIsFirst | components/AIModelPage.tsx:143-145 | as with `find`, the first RetryInfo detail is returned, whatever later ones say |
| AIModel.CeilSeconds | components/AIModelPage.tsx:159 | `Math.ceil(ms/1000)`: (s-1)·1000 < ms <= s·1000 |
| AIModel.StepsOf | components/AIModelPage.tsx:158-166 | one step per attempt, and the fifth attempt never retries |
| AIModel.RunFrom | components/AIModelPage.tsx:98-168 | a request from attempt k makes between k + 1 and 5 attempts and sleeps once fewer than it attempts |
| AIModel.RunFromRetried | components/AIModelPage.tsx:158-162 | every attempt before the last one retried after the delay the request records |
| AIModel.RunFromFinal | components/AIModelPage.tsx:119-166 | the last attempt did not retry, and it alone decides the image |
| AIModel.RunFromOfTrace | components/AIModelPage.tsx:98-168 | conversely, a trace of retries ended by a non-retrying step determines attempts, delays and image |
| AIModel.RunOfTrace | components/AIModelPage.tsx:98-168 | the same for a whole request from the first attempt |
| AIModel.IndexOfMessage | components/AIModelPage.tsx:71 | `indexOf`: -1 exactly for a text that is not a loading message, otherwise its position |
| AIModel.NextLoadingMessage | components/AIModelPage.tsx:70-74 | a tick always shows a loading message, and any other text is followed by the first one |
| AIModel.Advance | components/AIModelPage.tsx:67-75 | after a tick the screen shows a rotating loading message, never a retry notice |
| AIModel.ClassifyFailure | components/AIModelPage.tsx:134-156 | rate-limited exactly when the parsed error has status RESOURCE_EXHAUSTED; then the delay is the hinted one or the back-off |
| AIModel.ScanParts | components/AIModelPage.tsx:119-127 | the loop over the parts returns the first image, or none |
| AIModel.TryAttempt | components/AIModelPage.tsx:99-166 | one loop pass yields success with the image URL, a retry after the chosen delay, or giving up |
| AIModel.AIModelPage.constructor | components/AIModelPage.tsx:54-61 | the first product is selected when its id is non-empty; not loading; first loading message; no image; no error |
| AIModel.AIModelPage.SelectedProduct | components/AIModelPage.tsx:65 | the selected product is a catalogue product with the selected id, and is found whenever one has that id |
| AIModel.AIModelPage.SelectProduct | components/AIModelPage.tsx:199 | only the selection changes |
| AIModel.AIModelPage.TickLoadingMessage | components/AIModelPage.tsx:67-85 | the message advances only while loading; nothing else changes |
| AIModel.AIModelPage.HandleGenerateModel | components/AIModelPage.tsx:87-174 | without a selected product nothing changes; otherwise the page ends not loading, with the image or the fixed failure message, the logged sleeps and, with no rotation tick between the awaits, the last retry notice `Run` gives |
| AIModel.AIModelPage.Attempts | components/AIModelPage.tsx:95-173 | the attempt loop ends in exactly the state `Run(script)` describes |
| AIModel.RunBounds | components/AIModelPage.tsx:95-98 | 1 to 5 attempts, one sleep fewer than attempts, at most 4 sleeps |
| AIModel.OtherErrorsStopAtOnce | components/AIModelPage.tsx:158-166 | a first failure that is not rate-limited ends the request after one attempt, without image or sleep |
| AIModel.ImagelessResponseFails | components/AIModelPage.tsx:119-128 | a response without an image part is a failure that is not retried |
| AIModel.FirstImageWins | components/AIModelPage.tsx:119-126 | the first attempt with an image ends the request with that image's URL |
| AIModel.AllRateLimited | components/AIModelPage.tsx:158-168 | five rate-limit errors: five attempts, four sleeps, no image |
| AIModel.DelaysOfRun | components/AIModelPage.tsx:158-161 | each sleep follows a rate-limit failure, waits that attempt's delay, and announces an attempt of at most 5 |
| AIModel.DelayRange | components/AIModelPage.tsx:135-150 | a parsed hint of n gives a delay in [n·1000, n·1000 + 500); otherwise it is in [2000·2^k, 2000·2^k + 1000) |
| AIModel.BackoffDoubles | components/AIModelPage.tsx:135 | the back-off doubles from one attempt to the next, starting at 2000 ms |
| AIModel.RetryMessageSeconds | components/AIModelPage.tsx:159-160 | the number after "Retrying in " reads back as the delay rounded up to seconds |
| AIModel.RetryMessageAttempt | components/AIModelPage.tsx:160 | the message ends in "/5)" after the attempt number k + 2 |
| AIModel.RetryMessageRestartsRotation | components/AIModelPage.tsx:70-74 | a retry notice is no loading message, so the next tick shows the first loading message |
| AIModel.NextOfLoadingMessage | components/AIModelPage.tsx:70-74 | each loading message is followed by the next, the last by the first |
| AIModel.IndexOfLoadingMessage | components/AIModelPage.tsx:71 | `indexOf` finds each loading message at its own position |
| AIModel.AdvanceMatchesText | components/AIModelPage.tsx:70-74 | the rotation on progress values agrees with the rotation on message texts |
| AIModel.RotationCycles | components/AIModelPage.tsx:70-74 | four ticks bring each loading message back |
| AIModel.HintOfSeconds | components/AIModelPage.tsx:146-150 | a hint "ns" is read as n seconds |
| AIModel.RetryStep | components/AIModelPage.tsx:158-162 | a retrying step comes from an image-less rate-limit failure before the last attempt, after `Delay` |
| AIModel.HintedRetry | components/AIModelPage.tsx:141-150 | a rate-limit error hinting "ns" before the last attempt retries after n·1000 ms plus its jitter |
| AIModel.NegativeHintAccepted | components/AIModelPage.tsx:147-150 | a hint "-3s" is accepted and gives a negative delay |
| AIModel.FractionalHintTruncated | components/AIModelPage.tsx:147 | a hint "1.5s" is read as 1 second, so the delay lies in [1000, 1500) |
| AIModel.TwoRetriesThenImage | components/AIModelPage.tsx:98-168 | two retries and then an image: three attempts, those two delays, that image |
| AIModel.SinglePartImage | components/AIModelPage.tsx:119-126 | a one-candidate, one-part response with data succeeds with its data URL |
| AIModel.RetryThenSucceed | components/AIModelPage.tsx:141-161 | two "3s" rate limits and then an image: three attempts, two delays of 3 to 3.5 s, that image |
| App.CartAdd | App.tsx:93-97 | a cart already holding the id is unchanged; otherwise the product itself is appended |
| App.CartAddKeepsIdsDistinct | App.tsx:93-97 | a cart without repeated ids keeps none |
| App.CartAddIdempotent | App.tsx:93-97 | adding the same product twice is adding it once |
| App.CartRemove | App.tsx:99-101 | every item with the id goes; every other item stays, in order |
| App.CartRemoveAfterAdd | App.tsx:93-101 | removing after adding gives the cart without that id |
| App.WishlistAdd | App.tsx:103-105 | the result has no repeats and holds exactly the old ids and the new one |
| App.WishlistAddAppendsNew | App.tsx:103-105 | on a repeat-free wishlist, a new id is appended and a present one ignored |
| App.WishlistAddIdempotent | App.tsx:103-105 | adding an id twice is adding it once |
| App.WishlistRemove | App.tsx:107-109 | that id goes and every other id stays, in order |
| App.WishlistRemoveKeepsDistinct | App.tsx:107-109 | removal keeps a wishlist free of repeats |
| App.WishlistRemoveAfterAdd | App.tsx:103-109 | removing a freshly added id restores the wishlist |
| App.ProductsIn | App.tsx:386 | the wishlisted products, in catalogue order, and no others |
| App.LastFour | App.tsx:298 | `slice(-4)`: the last four products, or all when there are fewer |
| App.BreakpointOf | App.tsx:65-72 | phone below 768, tablet from 768 below 1024, laptop from 1024: exactly one |
| App.BreakpointMonotone | App.tsx:65-72 | a wider window never gets a smaller breakpoint |
| App.Shown | App.tsx:350-471 | the current view is shown whenever it has the selection it needs; a genre, category or playlist view without its selection falls back to the home page |
| App.NewReel | App.tsx:224-229 | the reel has the profile name, the file URL as both images, and an id starting "reel-" |
| App.Storefront.constructor | App.tsx:30-54 | the initial state: signed in, home view, empty cart and wishlist, light theme, the default profile |
| App.Storefront.ThemeToggle | App.tsx:81-83 | only the theme flips |
| App.Storefront.ToggleSidebar | App.tsx:85-87 | only the sidebar flag flips |
| App.Storefront.ProductSelect | App.tsx:89-91 | only the selected product changes |
| App.Storefront.AddToCart | App.tsx:93-97 | only the cart changes, to `CartAdd`, keeping ids distinct |
| App.Storefront.RemoveFromCart | App.tsx:99-101 | only the cart changes, to `CartRemove`, keeping ids distinct |
| App.Storefront.AddToWishlist | App.tsx:103-105 | only the wishlist changes, to `WishlistAdd` |
| App.Storefront.RemoveFromWishlist | App.tsx:107-109 | only the wishlist changes, to `WishlistRemove` |
| App.Storefront.NavigateToCategory | App.tsx:111-114 | the category is selected and its page shows |
| App.Storefront.NavigateToPlaylist | App.tsx:116-119 | the playlist is selected and its page shows |
| App.Storefront.NavigateToGenre | App.tsx:121-124 | the genre is selected and its page shows |
| App.Storefront.NavigateTo | App.tsx:126-182 | the view-only handlers set the view and nothing else |
| App.Storefront.NavigateToProfile | App.tsx:130-134 | signed in: the profile view; signed out: nothing changes |
| App.Storefront.UpdateProfile | App.tsx:184-186 | only the profile changes |
| App.Storefront.NavigateHome | App.tsx:188-193 | the three selections are cleared and the home page shows |
| App.Storefront.Login | App.tsx:195-197 | only the sign-in flag is set |
| App.Storefront.Logout | App.tsx:199-201 | only the sign-in flag is cleared |
| App.Storefront.SuccessfulPayment | App.tsx:203-205 | the cart empties and the success flag is set |
| App.Storefront.PaymentSuccessElapsed | App.tsx:206-209 | the success flag clears and the home reset happens |
| App.Storefront.SelectStory | App.tsx:212-214 | only the selected story changes |
| App.Storefront.CloseStory | App.tsx:216-218 | the selected story is cleared |
| App.Storefront.OpenUploadModal | App.tsx:220 | only the upload flag is set |
| App.Storefront.CloseUploadModal | App.tsx:221 | only the upload flag is cleared |
| App.Storefront.AddReel | App.tsx:223-232 | one new reel goes in front of the unchanged older stories, and the upload modal closes |
| Catalog.Find | App.tsx:94 | `find` by id: absent exactly when no product has the id; otherwise a product of the list with that id |
| Catalog.FindIsFirst | App.tsx:94 | `find` returns the first product with the id |
| Catalog.ResolveIds | App.tsx:264-266 | the resolved list is no longer than the ids and holds only catalogue products |
| Catalog.ResolveIdsKeepsKnownIds | App.tsx:313-315 | the resolved ids are exactly the known ids, in order and with repeats |
| Catalog.ResolveIdsAllKnown | App.tsx:330-332 | when every id is known, the result is one product per id |
| Catalog.ResolveIdsAppend | App.tsx:264-266 | resolution distributes over concatenated id lists |
| Catalog.Put | components/WrappedPage.tsx:27 | `Map.set`: an existing id keeps its place and takes the new product; a new id is appended |
| Catalog.UniqueById | components/WrappedPage.tsx:27 | no id repeats, and every product comes from the input |
| Catalog.UniqueByIdIds | components/WrappedPage.tsx:27 | the ids are the distinct input ids, in first-occurrence order |
| Catalog.UniqueByIdKeepsLast | components/WrappedPage.tsx:27 | each kept product is the last one with its id |
| Catalog.PutFresh | components/WrappedPage.tsx:27 | putting a new id appends the product |
| Cyclic.Next | components/QuickLinkCard.tsx:10 | the next index is in range: one further on, or 0 after the last |
| Cyclic.TicksAdd | components/QuickLinkCard.tsx:10 | a ticks then b ticks are a + b ticks |
| Cyclic.TicksBeforeWrap | components/QuickLinkCard.tsx:10 | before wrapping, k ticks move k places |
| Cyclic.TicksToWrap | components/QuickLinkCard.tsx:10 | from index i, n - i ticks reach 0 |
| Cyclic.FullTurn | components/QuickLinkCard.tsx:10 | n ticks bring every index back to itself |
| Ascii.TrimEmptyIffBlank | components/SearchPage.tsx:29 | trimming leaves nothing exactly when the text is all white space |
| Ascii.TrimPadded | components/TrackPackagePage.tsx:90 | white space added on either side of a text is removed again by `trim` |
| Ascii.ParseIntOfIntToString | components/AIModelPage.tsx:147 | `parseInt` reads back a written integer followed by a non-digit |
| Checkout.Shipping | components/CheckoutPage.tsx:21 | the fee is 15.00 exactly when the subtotal is positive, 0 otherwise |
| Checkout.Total | components/CheckoutPage.tsx:20-22 | an empty bag totals 0; with positive prices, a non-empty bag totals its subtotal plus the 15.00 fee |
| Checkout.SubtotalAppend | components/CheckoutPage.tsx:20 | the subtotal of two carts back to back is the sum of their subtotals |
| Checkout.SubtotalSplit | components/CheckoutPage.tsx:20 | the kept items and the removed items add up to the whole subtotal |
| Checkout.SubtotalPositive | components/CheckoutPage.tsx:20 | with positive prices, the subtotal is positive exactly for a non-empty bag |
| Checkout.SubtotalAfterAdd | components/CheckoutPage.tsx:20 | `CartAdd` of a product with a new id raises the subtotal by its price; a known id changes nothing |
| Checkout.DetailLine | components/CheckoutPage.tsx:73-75 | colour first, size last, the separator only between both; a numeric size 0 is falsy and prints as "0" from each `&&` it ends ("Color: Red00", or "0" alone); empty exactly when nothing is shown and the size is not 0 |
| Checkout.TrousersLine | components/CheckoutPage.tsx:73-75 | the trousers read "Color: Beige \| Size: 28" |
| Checkout.HoopsLine | components/CheckoutPage.tsx:73-75 | the hoops, without colour or size, get an empty line |
| Checkout.CheckoutPage.constructor | components/CheckoutPage.tsx:17-18 | both modals start closed |
| Checkout.CheckoutPage.ProceedToPayment | components/CheckoutPage.tsx:24-30 | signed in: payment opens; otherwise sign-in opens and payment does not |
| Checkout.CheckoutPage.AuthSucceeded | components/CheckoutPage.tsx:32-36 | the parent is told of the sign-in, payment opens, and sign-in closes |
| Checkout.CheckoutPage.CloseAuthModal | components/CheckoutPage.tsx:120 | only the sign-in modal closes |
| Checkout.CheckoutPage.ClosePaymentModal | components/CheckoutPage.tsx:125 | only the payment modal closes |
| Checkout.CheckoutPage.PaymentSucceeded | components/CheckoutPage.tsx:38-41 | payment closes and the parent is told the order is paid |
| Wrapped.Bump | components/WrappedPage.tsx:11 | a known key keeps its place and counts one more; a new key is appended; the total grows by one |
| Wrapped.BumpNew | components/WrappedPage.tsx:11 | a new key is appended with count 1 |
| Wrapped.BumpAt | components/WrappedPage.tsx:11 | a known key's entry counts one more, and no other entry changes |
| Wrapped.TallyOf | components/WrappedPage.tsx:10-13 | keys in first-occurrence order, each counting its occurrences, the counts summing to the number of keys |
| Wrapped.BrandCountIsPurchases | components/WrappedPage.tsx:10-13 | each brand counts its purchases |
| Wrapped.BrandCountsSum | components/WrappedPage.tsx:10-13 | the brand counts sum to the number of resolved purchases |
| Wrapped.GenreHitsCount | components/WrappedPage.tsx:17-21 | a purchase adds one to the name of each genre listing it, and nothing to the others |
| Wrapped.GenreCountIsListed | components/WrappedPage.tsx:16-23 | each genre counts the purchases it lists |
| Wrapped.CountBrands | components/WrappedPage.tsx:10-13 | the brand `reduce` produces `TallyOf` of the purchases' brands |
| Wrapped.CountGenres | components/WrappedPage.tsx:16-23 | the genre `reduce` produces `TallyOf` of the purchases' genre hits |
| Wrapped.BumpGenres | components/WrappedPage.tsx:17-21 | the `forEach` over genres bumps each listing genre in genre order |
| Wrapped.TopIndex | components/WrappedPage.tsx:14 | the index holds a largest count, and no earlier entry is as large |
| Wrapped.Top | components/WrappedPage.tsx:14 | the top entry is absent exactly for an empty tally; otherwise it is the first entry of largest count |
| Wrapped.TopOfTally | components/WrappedPage.tsx:29-30 | a tally has a top entry exactly when something was counted |
| Wrapped.Analyze | components/WrappedPage.tsx:7-32 | total items is the raw history length; unique pieces hold the distinct resolved ids in first-occurrence order; no top brand exactly when nothing resolved |
| Wrapped.AnalyzeHistory | components/WrappedPage.tsx:7-32 | the loops compute `Analyze` |
| Wrapped.Gallery | components/WrappedPage.tsx:97 | the first nine pieces, or all of them when there are fewer |
| Wrapped.Slides | components/WrappedPage.tsx:65-111 | 4 to 6 slides, intro first and share last, with a brand slide exactly when there is a top brand and a genre slide exactly when there is a top genre |
| Wrapped.NextSlide | components/WrappedPage.tsx:113 | one forward, held at the last slide |
| Wrapped.PrevSlide | components/WrappedPage.tsx:114 | one back, held at the first slide |
| Wrapped.PrevUndoesNext | components/WrappedPage.tsx:113-114 | forward then back returns to a slide that was not the last |
| Wrapped.ForwardFromStart | components/WrappedPage.tsx:113 | k steps forward from the first slide reach slide k, or stay on the last |
| Wrapped.WrappedPage.constructor | components/WrappedPage.tsx:41-43 | the page opens on slide 0 with the analysis of its inputs |
| Wrapped.WrappedPage.Next | components/WrappedPage.tsx:113 | the slide moves as `NextSlide` and stays in range |
| Wrapped.WrappedPage.Prev | components/WrappedPage.tsx:114 | the slide moves as `PrevSlide` and stays in range |
| Search.FilteredProducts | components/SearchPage.tsx:28-37 | a blank term finds nothing; otherwise exactly the products whose name or brand contains the lower-cased term, in order |
| Search.ExactlyOnePanel | components/SearchPage.tsx:39-40 | results and "no results" never show together, and the genre grid shows exactly when neither does, i.e. for a blank term |
| Search.FindsByName | components/SearchPage.tsx:32-36 | a non-blank term spelled inside a product's name, in any letter case, finds it |
| Search.IgnoresCase | components/SearchPage.tsx:32 | the results do not depend on the term's letter case |
| Search.TypingNarrows | components/SearchPage.tsx:28-37 | typing more after a non-blank term can only drop results |
| AIStudio.AvailableProducts | components/AIStudioPage.tsx:83-86 | no id repeats, and every piece comes from the closet or the wishlist |
| AIStudio.AvailableHoldsEachIdOnce | components/AIStudioPage.tsx:83-86 | each closet or wishlist id appears once, at its first place, holding the last product seen with it |
| AIStudio.OutfitProducts | components/AIStudioPage.tsx:88-93 | no outfit shows nothing; otherwise at most its ids, all from the pool |
| AIStudio.OutfitShowsKnownIds | components/AIStudioPage.tsx:88-93 | the shown ids are the outfit's ids found in the pool, in outfit order |
| AIStudio.Settle | components/AIStudioPage.tsx:101-114 | an outfit exactly when ids came back non-empty, else exactly one error: "fuzzy" for a throw, "no match" otherwise |
| AIStudio.AIStudioPage.constructor | components/AIStudioPage.tsx:78-81 | empty vibe, no outfit, not loading, no error |
| AIStudio.AIStudioPage.TypeVibe | components/AIStudioPage.tsx:147 | only the vibe changes |
| AIStudio.AIStudioPage.Begin | components/AIStudioPage.tsx:95-100 | a blank vibe or an empty pool changes nothing; otherwise loading starts with error and outfit cleared |
| AIStudio.AIStudioPage.Complete | components/AIStudioPage.tsx:101-114 | the settlement is applied and loading ends |
| AIStudio.AIStudioPage.HandleGenerateOutfit | components/AIStudioPage.tsx:95-115 | no-op without a vibe and a pool; otherwise ends not loading, holding exactly what `Settle` says |
| AIStudio.AIStudioPage.SubmitForm | components/AIStudioPage.tsx:117-120 | generates for the typed vibe |
| AIStudio.AIStudioPage.SuggestVibe | components/AIStudioPage.tsx:122-125 | the suggestion becomes the vibe and is generated at once |
| AIStudio.LoadingStudio.constructor | components/AIStudioPage.tsx:28 | the carousel starts at index 0 |
| AIStudio.LoadingStudio.Tick | components/AIStudioPage.tsx:30-36 | the index advances `(i + 1) mod n` and never moves when n = 0 |
| VisualSearch.RemoveAt | components/SearchWithAttachmentsPage.tsx:40-42 | the index-th file goes and the others keep their order; an out-of-range index changes nothing |
| VisualSearch.RemoveAtMultiset | components/SearchWithAttachmentsPage.tsx:40-42 | removal loses exactly that one file |
| VisualSearch.RemoveLastUndoesAttach | components/SearchWithAttachmentsPage.tsx:34-42 | removing the file just attached last undoes the attachment |
| VisualSearch.VisualSearchPage.constructor | components/SearchWithAttachmentsPage.tsx:26-32 | nothing attached, nothing searched |
| VisualSearch.VisualSearchPage.TypePrompt | components/SearchWithAttachmentsPage.tsx:148 | only the prompt changes |
| VisualSearch.VisualSearchPage.FileChange | components/SearchWithAttachmentsPage.tsx:34-38 | chosen files go after the attached ones; no list, no change |
| VisualSearch.VisualSearchPage.RemoveAttachment | components/SearchWithAttachmentsPage.tsx:40-42 | the filter loop leaves exactly `RemoveAt` of the list |
| VisualSearch.VisualSearchPage.DragEnter | components/SearchWithAttachmentsPage.tsx:58-62 | the highlight turns on |
| VisualSearch.VisualSearchPage.DragLeave | components/SearchWithAttachmentsPage.tsx:64-68 | the highlight turns off |
| VisualSearch.VisualSearchPage.Drop | components/SearchWithAttachmentsPage.tsx:44-51 | the highlight turns off and the dropped files are attached |
| VisualSearch.VisualSearchPage.Begin | components/SearchWithAttachmentsPage.tsx:70-79 | nothing attached: only the error is set; otherwise loading, performed, error and results cleared |
| VisualSearch.VisualSearchPage.Complete | components/SearchWithAttachmentsPage.tsx:81-92 | returned ids become the products, in order, unknown ones dropped; a throw sets the error; loading ends |
| VisualSearch.VisualSearchPage.HandleSearch | components/SearchWithAttachmentsPage.tsx:70-93 | the whole handler: the guard, then the results or the search error, never loading afterwards |
| TrackPackage.LookUp | components/TrackPackagePage.tsx:90-96 | found exactly when the key is in the table, then with the mock order and that key's events |
| TrackPackage.LookUpIgnoresPadding | components/TrackPackagePage.tsx:90 | a typed number with white space around it finds exactly what the bare number finds |
| TrackPackage.TrackPackagePage.constructor | components/TrackPackagePage.tsx:72-75 | the field starts with the mock order's tracking number |
| TrackPackage.TrackPackagePage.TypeNumber | components/TrackPackagePage.tsx:116 | only the field changes |
| TrackPackage.TrackPackagePage.Submit | components/TrackPackagePage.tsx:77-87 | a blank number only sets the error; otherwise loading starts with error and result cleared, keyed by the trimmed number |
| TrackPackage.TrackPackagePage.TimerFired | components/TrackPackagePage.tsx:89-97 | a known key sets the result, an unknown one the error; loading ends |
| TrackPackage.TrackPackagePage.Track | components/TrackPackagePage.tsx:77-98 | submission and timer together: the blank error, or the result, or the invalid error, never loading |
| Profile.SetField | components/ProfilePage.tsx:19-22 | only the named field takes the value |
| Profile.SetSize | components/ProfilePage.tsx:24-33 | only the named size takes the value; the other sizes and fields stay |
| Profile.SetFieldOfGet | components/ProfilePage.tsx:19-22 | writing a field's own value changes nothing |
| Profile.SetFieldCommutes | components/ProfilePage.tsx:19-22 | edits of different fields commute |
| Profile.ApplyLastWins | components/ProfilePage.tsx:19-33 | after any edits, a field holds the value last typed into it, or its original |
| Profile.ApplyKeepsAvatar | components/ProfilePage.tsx:19-33 | no edit reaches the avatar |
| Profile.ProfilePage.constructor | components/ProfilePage.tsx:12-13 | the draft starts as the user, not editing |
| Profile.ProfilePage.UserChanged | components/ProfilePage.tsx:15-17 | a new user resets the draft to it |
| Profile.ProfilePage.StartEditing | components/ProfilePage.tsx:70-72 | edit mode starts; the draft is kept |
| Profile.ProfilePage.HandleChange | components/ProfilePage.tsx:19-22 | in edit mode only that field changes; outside it, the disabled input changes nothing |
| Profile.ProfilePage.HandleSizeChange | components/ProfilePage.tsx:24-33 | in edit mode only that size changes; outside it, nothing |
| Profile.ProfilePage.HandleEdits | components/ProfilePage.tsx:19-33 | a run of change events leaves `Apply` of them on the draft |
| Profile.ProfilePage.HandleSave | components/ProfilePage.tsx:35-38 | the draft goes to the parent once and edit mode ends |
| Profile.ProfilePage.HandleCancel | components/ProfilePage.tsx:40-43 | the draft is reset to the user and edit mode ends |
| Chat.OtherUsers | components/ChatPage.tsx:17 | exactly the users other than the shopper, in order |
| Chat.MessageId | components/ChatPage.tsx:30 | the id starts with "msg-" |
| Chat.MessageIdRoundTrip | components/ChatPage.tsx:30 | the timestamp reads back from the id |
| Chat.MessageIdInjective | components/ChatPage.tsx:30 | different timestamps give different ids |
| Chat.ShippedOtherUsers | components/ChatPage.tsx:17 | with the shipped users, the others are the two friends |
| Chat.ChatPage.constructor | components/ChatPage.tsx:11-12 | the initial conversation and an empty draft |
| Chat.ChatPage.Type | components/ChatPage.tsx:106 | only the draft changes |
| Chat.ChatPage.SendMessage | components/ChatPage.tsx:25-37 | a blank draft sends nothing; otherwise one message with the untrimmed text is appended and the draft cleared |
| Chat.ChatPage.ImageLoaded | components/ChatPage.tsx:39-54 | a read image is appended as one message without text; no file, no change |
| ProductCard.Dispatch | components/ProductCard.tsx:17-32 | a card click selects; the bag adds to the cart without selecting; the heart removes exactly when wishlisted, else adds |
| ProductCard.HeartFlips | components/ProductCard.tsx:22-29 | one heart click flips the product's membership and no other id's |
| ProductCard.HeartTwiceRestores | components/ProductCard.tsx:22-29 | two clicks restore membership, and the wishlist itself when the product was not on it |
| Header.Badge | components/Header.tsx:100-102 | a badge exactly when the count is positive: "9+" above nine, else one digit |
| Header.BadgeReadsCount | components/Header.tsx:100-102 | the badge reads back as the count capped at nine |
| Header.BreakLines | components/Header.tsx:27 | no line break survives, and text without one is unchanged |
| Header.BreakLinesNewline | components/Header.tsx:27 | each line break becomes one `<br />`, with the text on either side kept |
| Header.BreakLinesAppend | components/Header.tsx:27 | the replacement distributes over concatenation |
| Header.Header.constructor | components/Header.tsx:39-42 | closed, empty query, not loading, no result |
| Header.Header.TypeQuery | components/Header.tsx:88 | only the query changes |
| Header.Header.Begin | components/Header.tsx:44-50 | a blank query changes nothing; otherwise the modal opens loading with the result cleared |
| Header.Header.Complete | components/Header.tsx:52-59 | the description, or the apology on a throw; loading ends |
| Header.Header.Submit | components/Header.tsx:44-60 | the whole handler: nothing for a blank query, otherwise an open modal with the description or apology, not loading |
| Header.Header.CloseModal | components/Header.tsx:62-65 | the modal closes and the query is cleared |
| QuickLinkCard.QuickLinkCard.constructor | components/QuickLinkCard.tsx:5 | the index starts at 0 |
| QuickLinkCard.QuickLinkCard.Tick | components/QuickLinkCard.tsx:7-14 | with more than one picture the index advances `(i + 1) mod n`; otherwise it stays |
| QuickLinkCard.ExactlyOneVisible | components/QuickLinkCard.tsx:24-26 | exactly the picture at the index is visible, and it is in range |
| UploadReel.PreviewKinds | components/UploadReelModal.tsx:91 | a "video/" type previews as video, an image type does not, nor does no file |
| UploadReel.FirstFile | components/UploadReelModal.tsx:81 | the first file exactly when a non-empty list was given |
| UploadReel.UploadReelModal.constructor | components/UploadReelModal.tsx:10-13 | no file, no preview, empty caption, no highlight |
| UploadReel.UploadReelModal.HandleFileChange | components/UploadReelModal.tsx:15-21 | no file changes nothing; a file replaces file and preview together |
| UploadReel.UploadReelModal.InputChange | components/UploadReelModal.tsx:81 | the input's first file, if any, is taken |
| UploadReel.UploadReelModal.DragEnter | components/UploadReelModal.tsx:37-41 | the highlight turns on |
| UploadReel.UploadReelModal.DragLeave | components/UploadReelModal.tsx:43-47 | the highlight turns off |
| UploadReel.UploadReelModal.Drop | components/UploadReelModal.tsx:23-30 | the highlight turns off and the first dropped file, if any, is taken |
| UploadReel.UploadReelModal.TypeCaption | components/UploadReelModal.tsx:99 | only the caption changes |
| UploadReel.UploadReelModal.HandleSubmit | components/UploadReelModal.tsx:53-57 | with a non-empty preview, exactly one post of preview and caption; otherwise none |
| UploadReel.EnabledPostHasPreview | components/UploadReelModal.tsx:111 | an enabled Post button means there is a preview to post |

## Left out

- Provider calls are replaced by their outcomes. This covers `generateContent`, `generateAIOutfit`, `searchWithAttachments` and `generateVibeDescription`: the model takes a returned value or a thrown error (`Reply`), or a per-attempt script for the retry loop. services/geminiService.ts is not part of this model.
- `JSON.parse` of an error message is abstracted to `ErrorPayload`: no JSON at all, or an `error` object with an optional status and optional details. A message that is not a string counts as no JSON. Checking `retryDelay` for a non-string value is not modelled.
- Time is a parameter or a step. `sleep`, `setTimeout` and `setInterval` become step methods (`TickLoadingMessage`, `TimerFired`, `PaymentSuccessElapsed`, `Tick`), and sleeps are logged with their delay instead of awaited. `Date.now()` and the formatted time are parameters.
- Jitter from `Math.random()` is a bounded integer number of milliseconds: [0, 1000) for the back-off and [0, 500) for a hint. A fractional jitter could round the announced seconds differently; integer jitter cannot show that.
- The prompt text, the body-type and skin-tone choices, and `handleAddToCartClick` of the AI model page are left out. They only feed the prompt or forward a call.
- `console.error` logging and `lastError` are left out. They have no visible effect.
- DOM and browser APIs are left out: `classList` (only the breakpoint rule is kept), audio playback, `FileReader`, drag-event propagation and scrolling. `URL.createObjectURL` and the data URL a `FileReader` produces are parameters.
- Money formatting with `toFixed(2)` is left out. Prices are integer minor units.
- `trim` and `toLowerCase` are modelled over ASCII only. Unicode white space and non-ASCII case mappings are not.
- React's batching and stale closures are not modelled; handlers run one after another on current state. Two cases differ: `handleAddToCart` reads the rendered `cart`, and the chat image's `onload` appends to the `messages` of the render that started the read. A send between the start and the end of an image read would be lost in the source but kept here.
- `Object.entries` ordering is taken as insertion order. That holds for brand and genre names that are not integer-like, which is true of all shipped names.
- The year-in-review outcome on the shipped data is not proved: 11 items, 7 unique pieces, "Urban Threads" with 3, "Minimalist". Evaluating the folds over the literal catalogue is too costly for the solver. The general lemmas about `Analyze` still apply to it.
- `Order` and `TrackingEvent` take the shape their use implies. `MOCK_ORDER` and `TRACKING_DATA` are used by components/TrackPackagePage.tsx but constants.ts does not define them, so the page takes them as constructor arguments.
- Profile.ProfilePage.HandleSave and Profile.ProfilePage.HandleCancel act only in edit mode, because their buttons render only then (components/ProfilePage.tsx:142). HandleChange and HandleSizeChange likewise act only in edit mode, because the inputs are disabled outside it.
- components/PaymentModal.tsx, components/AuthModal.tsx (beyond its `onLoginSuccess` then `onClose`), components/NowPlayingBar.tsx and the presentational pages are not part of this model; they only render.
- AIModel.AIModelPage.HandleGenerateModel runs as one step: the 2500 ms rotation ticks (`TickLoadingMessage`) are not interleaved with its awaits. The final message is therefore the last retry notice, whereas in the running page a tick during a sleep replaces that notice with the first loading message (`RetryMessageRestartsRotation`).
- AIModel.AIModelPage.HandleGenerateModel follows the code, not the intended design, on delays. A zero or negative delay is possible: a hint "-3s" gives a negative delay (`NegativeHintAccepted`), and "0s" gives the jitter alone.
