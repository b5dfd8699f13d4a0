/**
 * The storefront shell (App.tsx): the cart, the wishlist, the current view
 * and its selections, the stories strip, and the product lists the pages
 * receive. The list rebuilds are functions; the shell is a class whose
 * handlers update its fields.
 */
module App {
  import opened Types
  import opened Seqs
  import opened Ascii
  import opened Catalog
  import opened Constants

  // ---------------------------------------------------------- cart and wishlist

  /** `handleAddToCart`: the product is appended only when no cart item has its id. */
  function CartAdd(cart: seq<Product>, p: Product): (r: seq<Product>)
    ensures Ids(r) == if p.id in Ids(cart) then Ids(cart) else Ids(cart) + [p.id]
    ensures |cart| <= |r| <= |cart| + 1
    ensures forall q :: q in cart ==> q in r
    ensures HasId(cart, p.id) ==> r == cart
    ensures !HasId(cart, p.id) ==> r == cart + [p]
  {
    InIdsIffHasId(cart, p.id);
    if Find(cart, p.id).Some? then cart else cart + [p]
  }

  /** Adding to a cart without repeated ids leaves none. */
  lemma CartAddKeepsIdsDistinct(cart: seq<Product>, p: Product)
    requires NoDuplicates(Ids(cart))
    ensures NoDuplicates(Ids(CartAdd(cart, p)))
  {
    var before, after := Ids(cart), Ids(CartAdd(cart, p));
    if p.id !in before {
      assert forall i :: 0 <= i < |before| ==> after[i] == before[i];
    }
  }

  /** Adding the same product twice is adding it once. */
  lemma CartAddIdempotent(cart: seq<Product>, p: Product)
    ensures CartAdd(CartAdd(cart, p), p) == CartAdd(cart, p)
  {
    var once := CartAdd(cart, p);
    assert p.id in Ids(once);
    InIdsIffHasId(once, p.id);
  }

  /** `handleRemoveFromCart`: every item with the id goes, the others stay in order. */
  function CartRemove(cart: seq<Product>, id: Id): (r: seq<Product>)
    ensures !HasId(r, id)
    ensures forall q :: q in r <==> q in cart && q.id != id
    ensures IsSubsequence(r, cart)
  {
    Filter((q: Product) => q.id != id, cart)
  }

  /** Removing after adding undoes the add: the result is the cart without that id. */
  lemma CartRemoveAfterAdd(cart: seq<Product>, p: Product)
    ensures CartRemove(CartAdd(cart, p), p.id) == CartRemove(cart, p.id)
  {
    InIdsIffHasId(cart, p.id);
    if Find(cart, p.id).None? {
      var keep := (q: Product) => q.id != p.id;
      FilterAppend(keep, cart, [p]);
      assert Filter(keep, [p]) == [];
    }
  }

  /** `handleAddToWishlist`: `[...new Set([...prev, id])]`. */
  function WishlistAdd(w: seq<Id>, id: Id): (r: seq<Id>)
    ensures NoDuplicates(r)
    ensures forall x :: x in r <==> x in w || x == id
  {
    Distinct(w + [id])
  }

  /** On a wishlist without repeats, adding appends a new id and ignores a present one. */
  lemma WishlistAddAppendsNew(w: seq<Id>, id: Id)
    requires NoDuplicates(w)
    ensures WishlistAdd(w, id) == if id in w then w else w + [id]
  {
    var s := w + [id];
    assert s[..|s| - 1] == w;
    DistinctOfNoDuplicates(w);
  }

  /** Adding an id twice is adding it once. */
  lemma WishlistAddIdempotent(w: seq<Id>, id: Id)
    ensures WishlistAdd(WishlistAdd(w, id), id) == WishlistAdd(w, id)
  {
    WishlistAddAppendsNew(WishlistAdd(w, id), id);
  }

  /** `handleRemoveFromWishlist`: that id goes, every other id stays in order. */
  function WishlistRemove(w: seq<Id>, id: Id): (r: seq<Id>)
    ensures id !in r
    ensures forall x :: x in r <==> x in w && x != id
    ensures IsSubsequence(r, w)
  {
    Filter((x: Id) => x != id, w)
  }

  /** Removing keeps a wishlist free of repeats. */
  lemma WishlistRemoveKeepsDistinct(w: seq<Id>, id: Id)
    requires NoDuplicates(w)
    ensures NoDuplicates(WishlistRemove(w, id))
  {
    FilterNoDuplicates((x: Id) => x != id, w);
  }

  /** Removing a freshly added id gives the wishlist back. */
  lemma WishlistRemoveAfterAdd(w: seq<Id>, id: Id)
    requires NoDuplicates(w) && id !in w
    ensures WishlistRemove(WishlistAdd(w, id), id) == w
  {
    var keep := (x: Id) => x != id;
    WishlistAddAppendsNew(w, id);
    FilterAppend(keep, w, [id]);
    FilterAll(keep, w);
    assert Filter(keep, [id]) == [];
  }

  // ------------------------------------------------------------- product lists

  /** `PRODUCTS.filter(p => ids.includes(p.id))`: in catalogue order, as the wishlist, genre, category and playlist pages get them. */
  function ProductsIn(ps: seq<Product>, ids: seq<Id>): (r: seq<Product>)
    ensures forall p :: p in r <==> p in ps && p.id in ids
    ensures IsSubsequence(r, ps)
  {
    Filter((p: Product) => p.id in ids, ps)
  }

  /** The closet: `PURCHASE_HISTORY.map(id => PRODUCTS.find(...)).filter(Boolean)`. */
  function ClosetProducts(): seq<Product> {
    ResolveIds(PRODUCTS, PURCHASE_HISTORY)
  }

  const WeeklyGemIds: seq<Id> := ["prod-001", "prod-005", "prod-008", "prod-012"]

  /** The weekly gems, resolved the same way from a fixed id list. */
  function WeeklyGemProducts(): seq<Product> {
    ResolveIds(PRODUCTS, WeeklyGemIds)
  }

  /** `PRODUCTS.slice(-4)`: the last four products, or all of them when there are fewer. */
  function LastFour(ps: seq<Product>): (r: seq<Product>)
    ensures |r| == if |ps| < 4 then |ps| else 4
    ensures r == ps[|ps| - |r|..]
  {
    if |ps| < 4 then ps else ps[|ps| - 4..]
  }

  // ------------------------------------------------------------------ breakpoint

  datatype Breakpoint = Phone | Tablet | Laptop

  /** The body class of `handleResize` for a window width. */
  function BreakpointOf(width: int): (b: Breakpoint)
    ensures b == Phone <==> width < 768
    ensures b == Tablet <==> 768 <= width < 1024
    ensures b == Laptop <==> 1024 <= width
  {
    if width < 768 then Phone else if width < 1024 then Tablet else Laptop
  }

  function Rank(b: Breakpoint): nat {
    match b
    case Phone => 0
    case Tablet => 1
    case Laptop => 2
  }

  /** A wider window never gets a smaller breakpoint. */
  lemma BreakpointMonotone(narrow: int, wide: int)
    requires narrow <= wide
    ensures Rank(BreakpointOf(narrow)) <= Rank(BreakpointOf(wide))
  {
  }

  // ------------------------------------------------------------------- the shell

  datatype View =
    | HomeView | CategoryView | PlaylistView | CheckoutView | ProfileView | WishlistView
    | ChatView | SearchView | GenreView | WrappedView | ClosetView | AIStudioView | AIModelView
    | WhatsNewView | NewArrivalsView | WeeklyGemsView | SearchWithAttachmentsView | TrackPackageView

  /** The views whose navigation handler only sets the view. */
  predicate Unguarded(v: View) {
    !(v.HomeView? || v.CategoryView? || v.PlaylistView? || v.GenreView? || v.ProfileView?)
  }

  datatype Theme = Light | Dark

  /** Every field of the shell at once, to say what a handler changes and what it keeps. */
  datatype Shell = Shell(
    isSidebarCollapsed: bool,
    selectedProduct: Option<Product>,
    cart: seq<Product>,
    wishlist: seq<Id>,
    currentView: View,
    selectedCategory: Option<QuickLink>,
    selectedPlaylist: Option<Playlist>,
    selectedGenre: Option<Genre>,
    isLoggedIn: bool,
    selectedStory: Option<Reel>,
    isPaymentSuccess: bool,
    isUploadModalOpen: bool,
    stories: seq<Reel>,
    theme: Theme,
    userProfile: User)

  const InitialProfile: User :=
    User("Alex Doe", "alex.doe@example.com", "+1 123 456 7890",
      "https://images.pexels.com/photos/974911/pexels-photo-974911.jpeg?auto=compress&cs=tinysrgb&w=150",
      Sizes("M", "32", "US 8"))

  /** The current view has the selection its page needs, if it needs one. */
  predicate SelectionPresent(s: Shell) {
    && (s.currentView.GenreView? ==> s.selectedGenre.Some?)
    && (s.currentView.CategoryView? ==> s.selectedCategory.Some?)
    && (s.currentView.PlaylistView? ==> s.selectedPlaylist.Some?)
  }

  /** The page `renderContent` shows: a view needing a selection falls back to the home page without one. */
  function Shown(s: Shell): (v: View)
    ensures v.GenreView? ==> s.selectedGenre.Some?
    ensures v.CategoryView? ==> s.selectedCategory.Some?
    ensures v.PlaylistView? ==> s.selectedPlaylist.Some?
    ensures v == s.currentView || v.HomeView?
    ensures SelectionPresent(s) ==> v == s.currentView
  {
    match s.currentView
    case GenreView => if s.selectedGenre.Some? then GenreView else HomeView
    case CategoryView => if s.selectedCategory.Some? then CategoryView else HomeView
    case PlaylistView => if s.selectedPlaylist.Some? then PlaylistView else HomeView
    case _ => s.currentView
  }

  /** The reel `handleAddReel` prepends; `now` stands for `Date.now()`. */
  function NewReel(profile: User, fileUrl: string, now: int): (r: Reel)
    ensures r.userName == profile.name
    ensures r.thumbnailUrl == fileUrl && r.fullImageUrl == fileUrl
    ensures StartsWith(r.id, "reel-")
  {
    var id := "reel-" + IntToString(now);
    assert id[..5] == "reel-";
    Reel(id, profile.name, fileUrl, fileUrl)
  }

  class Storefront {
    var isSidebarCollapsed: bool
    var selectedProduct: Option<Product>
    var cart: seq<Product>
    var wishlist: seq<Id>
    var currentView: View
    var selectedCategory: Option<QuickLink>
    var selectedPlaylist: Option<Playlist>
    var selectedGenre: Option<Genre>
    var isLoggedIn: bool
    var selectedStory: Option<Reel>
    var isPaymentSuccess: bool
    var isUploadModalOpen: bool
    var stories: seq<Reel>
    var theme: Theme
    var userProfile: User

    function State(): Shell
      reads this
    {
      Shell(isSidebarCollapsed, selectedProduct, cart, wishlist, currentView, selectedCategory,
        selectedPlaylist, selectedGenre, isLoggedIn, selectedStory, isPaymentSuccess,
        isUploadModalOpen, stories, theme, userProfile)
    }

    /** Neither the cart nor the wishlist holds an id twice. */
    ghost predicate Valid()
      reads this
    {
      NoDuplicates(Ids(cart)) && NoDuplicates(wishlist)
    }

    /** The initial state; `initialStories` stands for `INITIAL_STORIES`. */
    constructor(initialStories: seq<Reel>)
      ensures Valid()
      ensures State() == Shell(false, None, [], [], HomeView, None, None, None, true, None,
        false, false, initialStories, Light, InitialProfile)
    {
      isSidebarCollapsed := false;
      selectedProduct := None;
      cart := [];
      wishlist := [];
      currentView := HomeView;
      selectedCategory := None;
      selectedPlaylist := None;
      selectedGenre := None;
      isLoggedIn := true;
      selectedStory := None;
      isPaymentSuccess := false;
      isUploadModalOpen := false;
      stories := initialStories;
      theme := Light;
      userProfile := InitialProfile;
    }

    method ThemeToggle()
      modifies this
      ensures State() == old(State()).(theme := if old(theme) == Light then Dark else Light)
    {
      theme := if theme == Light then Dark else Light;
    }

    method ToggleSidebar()
      modifies this
      ensures State() == old(State()).(isSidebarCollapsed := !old(isSidebarCollapsed))
    {
      isSidebarCollapsed := !isSidebarCollapsed;
    }

    method ProductSelect(p: Product)
      modifies this
      ensures State() == old(State()).(selectedProduct := Some(p))
    {
      selectedProduct := Some(p);
    }

    method AddToCart(p: Product)
      requires Valid()
      modifies this
      ensures Valid()
      ensures State() == old(State()).(cart := CartAdd(old(cart), p))
    {
      CartAddKeepsIdsDistinct(cart, p);
      if Find(cart, p.id).None? {
        cart := cart + [p];
      }
    }

    method RemoveFromCart(id: Id)
      requires Valid()
      modifies this
      ensures Valid()
      ensures State() == old(State()).(cart := CartRemove(old(cart), id))
    {
      var keep := (q: Product) => q.id != id;
      FilterNoDuplicates(keep, cart);
      ghost var ids := Ids(cart);
      assert Ids(CartRemove(cart, id)) == Filter((x: Id) => x != id, ids) by {
        FilterIds(cart, id);
      }
      WishlistRemoveKeepsDistinct(ids, id);
      cart := CartRemove(cart, id);
    }

    method AddToWishlist(id: Id)
      requires Valid()
      modifies this
      ensures Valid()
      ensures State() == old(State()).(wishlist := WishlistAdd(old(wishlist), id))
    {
      wishlist := WishlistAdd(wishlist, id);
    }

    method RemoveFromWishlist(id: Id)
      requires Valid()
      modifies this
      ensures Valid()
      ensures State() == old(State()).(wishlist := WishlistRemove(old(wishlist), id))
    {
      WishlistRemoveKeepsDistinct(wishlist, id);
      wishlist := WishlistRemove(wishlist, id);
    }

    method NavigateToCategory(link: QuickLink)
      modifies this
      ensures State() == old(State()).(selectedCategory := Some(link), currentView := CategoryView)
      ensures Shown(State()) == CategoryView
    {
      selectedCategory := Some(link);
      currentView := CategoryView;
    }

    method NavigateToPlaylist(playlist: Playlist)
      modifies this
      ensures State() == old(State()).(selectedPlaylist := Some(playlist), currentView := PlaylistView)
      ensures Shown(State()) == PlaylistView
    {
      selectedPlaylist := Some(playlist);
      currentView := PlaylistView;
    }

    method NavigateToGenre(genre: Genre)
      modifies this
      ensures State() == old(State()).(selectedGenre := Some(genre), currentView := GenreView)
      ensures Shown(State()) == GenreView
    {
      selectedGenre := Some(genre);
      currentView := GenreView;
    }

    /** The handlers that only switch the view: checkout, wishlist, chat, search and the rest. */
    method NavigateTo(v: View)
      requires Unguarded(v)
      modifies this
      ensures State() == old(State()).(currentView := v)
      ensures Shown(State()) == v
    {
      currentView := v;
    }

    /** `handleNavigateToProfile`: only a signed-in user gets there. */
    method NavigateToProfile()
      modifies this
      ensures State() == if old(isLoggedIn) then old(State()).(currentView := ProfileView) else old(State())
    {
      if isLoggedIn {
        currentView := ProfileView;
      }
    }

    method UpdateProfile(profile: User)
      modifies this
      ensures State() == old(State()).(userProfile := profile)
    {
      userProfile := profile;
    }

    /** `handleNavigateHome`: clears the three selections and shows the home page. */
    method NavigateHome()
      modifies this
      ensures State() == old(State()).(selectedCategory := None, selectedPlaylist := None,
        selectedGenre := None, currentView := HomeView)
      ensures Shown(State()) == HomeView
    {
      selectedCategory := None;
      selectedPlaylist := None;
      selectedGenre := None;
      currentView := HomeView;
    }

    method Login()
      modifies this
      ensures State() == old(State()).(isLoggedIn := true)
    {
      isLoggedIn := true;
    }

    method Logout()
      modifies this
      ensures State() == old(State()).(isLoggedIn := false)
    {
      isLoggedIn := false;
    }

    /** `handleSuccessfulPayment`, up to its timer: the cart empties and the success modal shows. */
    method SuccessfulPayment()
      modifies this
      ensures State() == old(State()).(cart := [], isPaymentSuccess := true)
    {
      cart := [];
      isPaymentSuccess := true;
    }

    /** The timer callback of `handleSuccessfulPayment`, three seconds later: modal gone, home page shown. */
    method PaymentSuccessElapsed()
      modifies this
      ensures State() == old(State()).(isPaymentSuccess := false, selectedCategory := None,
        selectedPlaylist := None, selectedGenre := None, currentView := HomeView)
    {
      isPaymentSuccess := false;
      NavigateHome();
    }

    method SelectStory(story: Reel)
      modifies this
      ensures State() == old(State()).(selectedStory := Some(story))
    {
      selectedStory := Some(story);
    }

    method CloseStory()
      modifies this
      ensures State() == old(State()).(selectedStory := None)
    {
      selectedStory := None;
    }

    method OpenUploadModal()
      modifies this
      ensures State() == old(State()).(isUploadModalOpen := true)
    {
      isUploadModalOpen := true;
    }

    method CloseUploadModal()
      modifies this
      ensures State() == old(State()).(isUploadModalOpen := false)
    {
      isUploadModalOpen := false;
    }

    /**
     * `handleAddReel`: the new reel goes in front of the older stories, which
     * keep their order, and the upload modal closes. The caption is unused.
     */
    method AddReel(fileUrl: string, caption: string, now: int)
      modifies this
      ensures State() == old(State()).(stories := [NewReel(old(userProfile), fileUrl, now)] + old(stories),
        isUploadModalOpen := false)
    {
      stories := [NewReel(userProfile, fileUrl, now)] + stories;
      CloseUploadModal();
    }
  }

  /** The ids of the cart filtered by id are the cart's ids filtered the same way. */
  lemma {:induction false} FilterIds(cart: seq<Product>, id: Id)
    ensures Ids(CartRemove(cart, id)) == Filter((x: Id) => x != id, Ids(cart))
  {
    if cart != [] {
      var keep := (q: Product) => q.id != id;
      var rest := Filter(keep, cart[1..]);
      FilterIds(cart[1..], id);
      IdsAppend([cart[0]], cart[1..]);
      assert [cart[0]] + cart[1..] == cart;
      if keep(cart[0]) {
        IdsAppend([cart[0]], rest);
      }
    }
  }
}
