/**
 * The bag and the checkout flow (components/CheckoutPage.tsx): the order
 * summary computed from the cart, the line under each item, and the two
 * modals that gate payment behind signing in.
 */
module Checkout {
  import opened Types
  import opened Seqs
  import opened Ascii
  import opened Catalog
  import opened Constants
  import App

  // -------------------------------------------------------------- order summary

  /** `cart.reduce((sum, item) => sum + item.price, 0)`, in minor units. */
  function Subtotal(cart: seq<Product>): int {
    if cart == [] then 0 else Subtotal(cart[..|cart| - 1]) + cart[|cart| - 1].price
  }

  /** The flat shipping fee, 15.00, charged only when the subtotal is positive. */
  const ShippingFee: int := 1500

  function Shipping(subtotal: int): (fee: int)
    ensures fee == 0 || fee == ShippingFee
    ensures fee == ShippingFee <==> subtotal > 0
  {
    if subtotal > 0 then ShippingFee else 0
  }

  /**
   * The amount handed to the payment modal. An empty bag costs nothing; with
   * positive prices, every non-empty bag pays its subtotal plus the fee.
   */
  function Total(cart: seq<Product>): (t: int)
    ensures cart == [] ==> t == 0
    ensures (forall p :: p in cart ==> p.price > 0) ==>
      t == if cart == [] then 0 else Subtotal(cart) + ShippingFee
  {
    var s := Subtotal(cart);
    assert (forall p :: p in cart ==> p.price > 0) ==> (s > 0 <==> cart != []) by {
      if forall p :: p in cart ==> p.price > 0 {
        SubtotalPositive(cart);
      }
    }
    s + Shipping(s)
  }

  /** The subtotal of two carts back to back is the sum of their subtotals. */
  lemma {:induction false} SubtotalAppend(a: seq<Product>, b: seq<Product>)
    ensures Subtotal(a + b) == Subtotal(a) + Subtotal(b)
  {
    if b == [] {
      assert a + b == a;
    } else {
      var ab := a + b;
      assert ab[..|ab| - 1] == a + b[..|b| - 1];
      SubtotalAppend(a, b[..|b| - 1]);
    }
  }

  /** The items a filter keeps and the items it drops add up to the whole subtotal. */
  lemma {:induction false} SubtotalSplit(keep: Product -> bool, cart: seq<Product>)
    ensures Subtotal(Filter(keep, cart)) + Subtotal(Filter(x => !keep(x), cart)) == Subtotal(cart)
  {
    if cart != [] {
      var rest := cart[1..];
      SubtotalSplit(keep, rest);
      SubtotalAppend([cart[0]], rest);
      assert [cart[0]] + rest == cart;
      if keep(cart[0]) {
        SubtotalAppend([cart[0]], Filter(keep, rest));
      } else {
        SubtotalAppend([cart[0]], Filter(x => !keep(x), rest));
      }
    }
  }

  /** With every price positive, the subtotal is positive exactly when the bag holds something. */
  lemma {:induction false} SubtotalPositive(cart: seq<Product>)
    requires forall p :: p in cart ==> p.price > 0
    ensures Subtotal(cart) > 0 <==> cart != []
    ensures Subtotal(cart) >= 0
  {
    if cart != [] {
      SubtotalPositive(cart[..|cart| - 1]);
    }
  }

  /** Adding a product whose id is not in the bag raises the subtotal by its price. */
  lemma SubtotalAfterAdd(cart: seq<Product>, p: Product)
    ensures Subtotal(App.CartAdd(cart, p)) == Subtotal(cart) + (if HasId(cart, p.id) then 0 else p.price)
  {
    SubtotalAppend(cart, [p]);
    assert Subtotal([p]) == p.price by {
      assert [p][..0] == [];
    }
  }

  // ------------------------------------------------------------- the item line

  /** JavaScript truthiness of `item.color`: present and not the empty string. */
  predicate ColorShown(p: Product) {
    p.color.Some? && p.color.value != ""
  }

  /** JavaScript truthiness of `item.size`: present, and neither `''` nor `0`. */
  predicate SizeShown(p: Product) {
    p.size.Some? &&
    match p.size.value
    case SizeLabel(t) => t != ""
    case SizeNumber(n) => n != 0
  }

  /** A size as a template literal prints it. */
  function SizeText(s: Size): string {
    match s
    case SizeLabel(t) => t
    case SizeNumber(n) => IntToString(n)
  }

  /**
   * What React prints for a falsy `item.size` that an `&&` evaluates to: the
   * number 0 prints as "0"; `undefined` and `''` print nothing.
   */
  function FalsySize(p: Product): string {
    if p.size == Some(SizeNumber(0)) then "0" else ""
  }

  /**
   * The line under an item: its colour, a separator when both are shown, its
   * size. A numeric size 0 is falsy, so each `&&` it ends evaluates to 0,
   * which React prints.
   */
  function DetailLine(p: Product): (r: string)
    ensures r == [] <==> !ColorShown(p) && !SizeShown(p) && p.size != Some(SizeNumber(0))
    ensures ColorShown(p) ==> StartsWith(r, "Color: " + p.color.value)
    ensures !ColorShown(p) && SizeShown(p) ==> r == "Size: " + SizeText(p.size.value)
    ensures SizeShown(p) ==>
      (|r| >= |"Size: " + SizeText(p.size.value)| &&
       r[|r| - |"Size: " + SizeText(p.size.value)|..] == "Size: " + SizeText(p.size.value))
    ensures ColorShown(p) && SizeShown(p) ==>
      r == "Color: " + p.color.value + " | Size: " + SizeText(p.size.value)
    ensures p.size == Some(SizeNumber(0)) ==>
      r == if ColorShown(p) then "Color: " + p.color.value + "00" else "0"
  {
    var color := if ColorShown(p) then "Color: " + p.color.value else "";
    var bar := if !ColorShown(p) then "" else if SizeShown(p) then " | " else FalsySize(p);
    var size := if SizeShown(p) then "Size: " + SizeText(p.size.value) else FalsySize(p);
    assert (color + bar + size)[..|color|] == color;
    assert (color + bar + size)[|color + bar|..] == size;
    color + bar + size
  }

  /** The high-waisted trousers show colour, separator and a numeric size. */
  lemma TrousersLine()
    ensures DetailLine(PRODUCTS[2]) == "Color: Beige | Size: 28"
  {
    assert IntToString(28) == "28" by {
      assert NatToString(28) == NatToString(2) + [DigitChar(8)];
    }
  }

  /** The gold hoops have neither colour nor size, so their line is empty. */
  lemma HoopsLine()
    ensures DetailLine(PRODUCTS[4]) == ""
  {
  }

  // ------------------------------------------------------------------ the flow

  /** Calls the page makes on its parent. */
  datatype Notice = LoggedIn | PaidFor

  class CheckoutPage {
    var isAuthModalOpen: bool
    var isPaymentModalOpen: bool
    /** `onLogin` and `onSuccessfulPayment`, in the order the page called them. */
    var notices: seq<Notice>

    constructor()
      ensures !isAuthModalOpen && !isPaymentModalOpen && notices == []
    {
      isAuthModalOpen := false;
      isPaymentModalOpen := false;
      notices := [];
    }

    /** `handleProceedToPayment`: a signed-in shopper gets the payment modal, anyone else the sign-in one. */
    method ProceedToPayment(isLoggedIn: bool)
      modifies this
      ensures isLoggedIn ==> isPaymentModalOpen && isAuthModalOpen == old(isAuthModalOpen)
      ensures !isLoggedIn ==> isAuthModalOpen && isPaymentModalOpen == old(isPaymentModalOpen)
      ensures notices == old(notices)
    {
      if isLoggedIn {
        isPaymentModalOpen := true;
      } else {
        isAuthModalOpen := true;
      }
    }

    /**
     * The sign-in modal's `handleAuth`: `handleLoginSuccess` tells the parent
     * and opens payment, then the modal closes itself.
     */
    method AuthSucceeded()
      modifies this
      ensures notices == old(notices) + [LoggedIn]
      ensures isPaymentModalOpen && !isAuthModalOpen
    {
      notices := notices + [LoggedIn];
      isPaymentModalOpen := true;
      CloseAuthModal();
    }

    method CloseAuthModal()
      modifies this
      ensures !isAuthModalOpen
      ensures isPaymentModalOpen == old(isPaymentModalOpen) && notices == old(notices)
    {
      isAuthModalOpen := false;
    }

    method ClosePaymentModal()
      modifies this
      ensures !isPaymentModalOpen
      ensures isAuthModalOpen == old(isAuthModalOpen) && notices == old(notices)
    {
      isPaymentModalOpen := false;
    }

    /** `handlePaymentSuccess`: the modal closes and the parent is told the order is paid. */
    method PaymentSucceeded()
      modifies this
      ensures !isPaymentModalOpen && isAuthModalOpen == old(isAuthModalOpen)
      ensures notices == old(notices) + [PaidFor]
    {
      isPaymentModalOpen := false;
      notices := notices + [PaidFor];
    }
  }
}
