/** The storefront's cart manager: the in-memory list of cart lines, its copy
    in local storage, the rendered total, badge and empty-cart notice, and the
    event handlers that change them. */
module Storefront {
  import opened CartItems

  /** Which control inside the cart panel was clicked. */
  datatype CartControl = PlusButton | MinusButton | DeleteButton | OtherTarget

  /** How the order request ended: an ok response, a non-ok response, or a thrown error. */
  datatype OrderResponse = Ok | NotOk | NetworkError

  /** The checkout form's fields. */
  datatype Customer = Customer(name: string, phone: string, address: string, paymentMethod: string)

  /** The order request body. */
  datatype Order = Order(
    customerName: string,
    phoneNumber: string,
    address: string,
    paymentMethod: string,
    upiScreenshot: string,
    products: seq<CartItem>,
    total: int)

  const UpiMethod: string := "UPI"

  /** The screenshot sent with an order: the encoded attachment when paying by
      UPI with a file chosen, the empty string otherwise. */
  function Screenshot(paymentMethod: string, attachment: Option<string>): string {
    if paymentMethod == UpiMethod && attachment.Some? then attachment.value else ""
  }

  /** The `forEach` loop of `updateCart` that accumulates the cart total. */
  method SumLineTotals(items: seq<CartItem>) returns (total: int)
    ensures total == Total(items)
  {
    total := 0;
    var i := 0;
    while i < |items|
      invariant 0 <= i <= |items|
      invariant total == Total(items[..i])
    {
      assert items[..i + 1][..i] == items[..i];
      total := total + items[i].price * items[i].quantity;
      i := i + 1;
    }
    assert items[..|items|] == items;
  }

  class CartManager {
    var items: seq<CartItem>                  // cartItems
    var storage: Option<seq<CartItem>>        // the 'cartItems' key of local storage
    var shownTotal: int                       // text of the cart total, in paise
    var shownCount: int                       // text of the cart badge
    var showsEmptyNotice: bool                // "Your cart is empty." in the cart panel

    /** What every handler leaves behind: storage mirrors the cart, and the
        display shows the cart's current total, count and emptiness. */
    ghost predicate Valid()
      reads this
    {
      && storage == Some(items)
      && shownTotal == Total(items)
      && shownCount == Count(items)
      && showsEmptyNotice == (items == [])
    }

    /** Page load: read the stored cart (an absent key gives the empty cart), then render. */
    constructor (stored: Option<seq<CartItem>>)
      ensures Valid()
      ensures items == if stored.Some? then stored.value else []
    {
      items := if stored.Some? then stored.value else [];
      storage := stored;
      new;
      UpdateCart();
    }

    /** Recompute the display from scratch and persist the cart. */
    method UpdateCart()
      modifies this
      ensures Valid()
      ensures items == old(items)
    {
      var total := SumLineTotals(items);
      shownTotal := total;
      shownCount := Count(items);
      showsEmptyNotice := |items| == 0;
      storage := Some(items);
    }

    /** The add-to-cart button for `productId`, against the catalogue just fetched. */
    method AddToCart(catalogue: seq<Product>, productId: int) returns (added: bool)
      requires Valid()
      modifies this
      ensures Valid()
      ensures added <==> exists k :: 0 <= k < |catalogue| && catalogue[k].id == productId
      ensures added ==> items == AddProduct(old(items), catalogue[ProductIndex(catalogue, productId).value])
      ensures !added ==> items == old(items)
      ensures WellFormed(old(items)) ==> WellFormed(items)
    {
      var k := ProductIndex(catalogue, productId);
      added := k.Some?;
      if added {
        if WellFormed(items) { AddPreservesWellFormed(items, catalogue[k.value]); }
        items := AddProduct(items, catalogue[k.value]);
        UpdateCart();
      }
    }

    /** A click inside the cart panel carrying `productId`. */
    method OnCartClick(control: CartControl, productId: int)
      requires Valid()
      modifies this
      ensures Valid()
      ensures control == PlusButton ==> items == Increment(old(items), productId)
      ensures control == MinusButton ==> items == Decrement(old(items), productId)
      ensures control == DeleteButton ==> items == RemoveId(old(items), productId)
      ensures control == OtherTarget ==> items == old(items)
      ensures WellFormed(old(items)) ==> WellFormed(items)
    {
      match control {
        case PlusButton =>
          if WellFormed(items) { IncrementPreservesWellFormed(items, productId); }
          items := Increment(items, productId);
        case MinusButton =>
          if WellFormed(items) { DecrementPreservesWellFormed(items, productId); }
          items := Decrement(items, productId);
        case DeleteButton =>
          if WellFormed(items) { RemovePreservesWellFormed(items, productId); }
          items := RemoveId(items, productId);
        case OtherTarget =>
      }
      UpdateCart();
    }

    /** The checkout button: the checkout form opens only for a non-empty cart. */
    method Checkout() returns (proceed: bool)
      requires Valid()
      ensures proceed <==> items != []
      ensures PositiveQuantities(items) ==> (proceed <==> shownCount > 0)
    {
      proceed := |items| > 0;
      if PositiveQuantities(items) { CountAtLeastLines(items); }
    }

    /** Submitting the checkout form: send the order, and on an ok response
        empty the cart and its stored copy. */
    method SubmitOrder(customer: Customer, attachment: Option<string>, response: OrderResponse)
      returns (order: Order, placed: bool)
      requires Valid()
      modifies this
      ensures Valid()
      ensures order.products == old(items) && order.total == Total(old(items))
      ensures order.customerName == customer.name && order.phoneNumber == customer.phone
      ensures order.address == customer.address && order.paymentMethod == customer.paymentMethod
      ensures order.upiScreenshot == Screenshot(customer.paymentMethod, attachment)
      ensures placed <==> response == Ok
      ensures placed ==> items == [] && storage == Some([]) && shownTotal == 0 && shownCount == 0
      ensures !placed ==> items == old(items)
    {
      var screenshot := Screenshot(customer.paymentMethod, attachment);
      order := Order(customer.name, customer.phone, customer.address, customer.paymentMethod,
                     screenshot, items, shownTotal);
      placed := response == Ok;
      if placed {
        items := [];
        storage := None;
        UpdateCart();
      }
    }
  }
}
