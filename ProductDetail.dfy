// The purchase controls of the product page: variant choice, quantity
// stepper, add-to-cart and buy-now with their alerts, stock display, SKU.

module ProductDetail {
  import opened Wrappers
  import opened JsValues
  import QueryParams

  datatype Image = Image(url: string, alt: string)

  /** A product variant: its id, the stock the backend reports (possibly null) and its media. */
  datatype Variant = Variant(id: string, quantityAvailable: Option<int>, media: seq<Image>)

  datatype AlertKind = Success | Error | Warning

  datatype Alert = Alert(kind: AlertKind, title: string, message: string, show: bool)

  const HiddenAlert: Alert := Alert(Success, "", "", false)

  /** The stock figure the page uses: `quantityAvailable || 0`. */
  function Stock(v: Option<Variant>): int {
    if v.Some? && v.value.quantityAvailable.Some? then v.value.quantityAvailable.value else 0
  }

  /** The green "in stock" indicator. */
  predicate InStock(v: Option<Variant>) {
    Stock(v) > 0
  }

  /** Both purchase buttons are disabled when there is no stock or an add is in progress. */
  predicate PurchaseDisabled(v: Option<Variant>, isAddingToCart: bool) {
    Stock(v) == 0 || isAddingToCart
  }

  /** With a non-negative stock figure, the buttons are enabled exactly when in stock and idle. */
  lemma EnabledIffInStock(v: Option<Variant>, isAddingToCart: bool)
    requires Stock(v) >= 0
    ensures !PurchaseDisabled(v, isAddingToCart) <==> InStock(v) && !isAddingToCart
  {
  }

  /** A missing variant or a null stock counts as none: out of stock and disabled. */
  lemma NoStockFigure(v: Option<Variant>, isAddingToCart: bool)
    requires v.None? || v.value.quantityAvailable.None?
    ensures !InStock(v) && PurchaseDisabled(v, isAddingToCart)
  {
  }

  /** `!selectedVariant?.id`: no variant, or one whose id is the empty string. */
  predicate HasVariantId(v: Option<Variant>) {
    v.Some? && v.value.id != ""
  }

  /** The SKU shown: the last eight characters of the product id, or all of it when shorter. */
  function Sku(productId: string): (r: string)
    ensures |r| == if |productId| < 8 then |productId| else 8
    ensures r == productId[|productId| - |r|..]
  {
    if |productId| < 8 then productId else productId[|productId| - 8..]
  }

  /** A SKU keeps the id's tail: an id longer than eight ends in its SKU. */
  lemma SkuIsSuffix(prefix: string, tail: string)
    requires |tail| == 8
    ensures Sku(prefix + tail) == tail
  {
    assert (prefix + tail)[|prefix|..] == tail;
  }

  function AddedMessage(quantity: nat): string {
    "Added " + NatToString(quantity) + " product(s) to cart"
  }

  /** The number in the success message reads back as the quantity that was added. */
  lemma AddedMessageShowsQuantity(quantity: nat)
    ensures |AddedMessage(quantity)| == |NatToString(quantity)| + 25
    ensures ToNumber(AddedMessage(quantity)[6..|AddedMessage(quantity)| - 19]) == Num(quantity)
  {
    var m := AddedMessage(quantity);
    assert m[6..|m| - 19] == NatToString(quantity);
    DigitsValueOfNatToString(quantity);
  }

  /** The warning shown when no variant is selected, per button. */
  const AddToCartWarning: string := "Please select a product variant before adding to cart"
  const BuyNowWarning: string := "Please select a product variant before purchasing"

  /** The call made to `addItemAction`: the variant id and the quantity. */
  datatype CartCall = CartCall(variantId: string, quantity: nat)

  /** The product page's state. */
  class Page {
    const channel: string
    var selectedVariant: Option<Variant>
    var quantity: nat
    var isFavorite: bool
    var isAddingToCart: bool
    var selectedImage: Option<Image>
    var alert: Alert
    /** The query parameters of the page URL, as last written by `router.replace`. */
    var urlParams: QueryParams.Params

    /** The quantity never drops below one. */
    predicate Valid()
      reads this
    {
      quantity >= 1
    }

    /** `currentImage ?? {}`: a missing image (None) stands for the empty object. */
    constructor(channel: string, variants: seq<Variant>, currentImage: Option<Image>, urlParams: QueryParams.Params)
      ensures Valid()
      ensures this.channel == channel && quantity == 1 && !isAddingToCart && !isFavorite
      ensures selectedVariant == (if |variants| > 0 then Some(variants[0]) else None)
      ensures selectedImage == currentImage && alert == HiddenAlert && this.urlParams == urlParams
    {
      this.channel := channel;
      selectedVariant := if |variants| > 0 then Some(variants[0]) else None;
      quantity := 1;
      isFavorite := false;
      isAddingToCart := false;
      selectedImage := currentImage;
      alert := HiddenAlert;
      this.urlParams := urlParams;
    }

    method ShowAlert(kind: AlertKind, title: string, message: string)
      modifies this
      ensures alert == Alert(kind, title, message, true)
      ensures selectedVariant == old(selectedVariant) && quantity == old(quantity)
      ensures isAddingToCart == old(isAddingToCart) && selectedImage == old(selectedImage)
      ensures isFavorite == old(isFavorite) && urlParams == old(urlParams)
    {
      alert := Alert(kind, title, message, true);
    }

    /** The timer callback five seconds after `showAlert`: hide the alert, keep its text. */
    method HideAlert()
      modifies this
      ensures alert == old(alert).(show := false)
      ensures selectedVariant == old(selectedVariant) && quantity == old(quantity)
      ensures isAddingToCart == old(isAddingToCart) && selectedImage == old(selectedImage)
      ensures isFavorite == old(isFavorite) && urlParams == old(urlParams)
    {
      alert := alert.(show := false);
    }

    /** The minus button: `Math.max(1, quantity - 1)`. */
    method Decrement()
      requires Valid()
      modifies this
      ensures Valid()
      ensures quantity == Stepped(old(quantity), false)
      ensures quantity == if old(quantity) > 1 then old(quantity) - 1 else 1
      ensures selectedVariant == old(selectedVariant) && isAddingToCart == old(isAddingToCart) && alert == old(alert)
      ensures isFavorite == old(isFavorite) && selectedImage == old(selectedImage) && urlParams == old(urlParams)
    {
      quantity := Stepped(quantity, false);
    }

    /** The plus button. */
    method Increment()
      requires Valid()
      modifies this
      ensures Valid()
      ensures quantity == Stepped(old(quantity), true)
      ensures quantity == old(quantity) + 1
      ensures selectedVariant == old(selectedVariant) && isAddingToCart == old(isAddingToCart) && alert == old(alert)
      ensures isFavorite == old(isFavorite) && selectedImage == old(selectedImage) && urlParams == old(urlParams)
    {
      quantity := Stepped(quantity, true);
    }

    /** Picking a variant: select it, show its first image, and write its id to the URL's `variant`. */
    method HandleVariantChange(v: Variant) returns (replacedParams: QueryParams.Params)
      modifies this
      ensures selectedVariant == Some(v)
      ensures selectedImage == if |v.media| > 0 then Some(v.media[0]) else None
      ensures urlParams == QueryParams.Set(old(urlParams), "variant", v.id) && replacedParams == urlParams
      ensures QueryParams.Get(urlParams, "variant") == Some(v.id)
      ensures forall k :: k != "variant" ==> QueryParams.GetAll(urlParams, k) == QueryParams.GetAll(old(urlParams), k)
      ensures quantity == old(quantity) && isAddingToCart == old(isAddingToCart) && alert == old(alert)
      ensures isFavorite == old(isFavorite)
    {
      selectedVariant := Some(v);
      selectedImage := if |v.media| > 0 then Some(v.media[0]) else None;
      QueryParams.SetHolds(urlParams, "variant", v.id);
      forall k | k != "variant"
        ensures QueryParams.GetAll(QueryParams.Set(urlParams, "variant", v.id), k) == QueryParams.GetAll(urlParams, k)
      {
        QueryParams.SetKeepsOther(urlParams, "variant", v.id, k);
      }
      urlParams := QueryParams.Set(urlParams, "variant", v.id);
      replacedParams := urlParams;
    }

    /** A thumbnail clicked. */
    method SelectImage(image: Image)
      modifies this
      ensures selectedImage == Some(image)
      ensures selectedVariant == old(selectedVariant) && quantity == old(quantity) && alert == old(alert)
      ensures isFavorite == old(isFavorite) && isAddingToCart == old(isAddingToCart) && urlParams == old(urlParams)
    {
      selectedImage := Some(image);
    }

    /** The heart button. */
    method ToggleFavorite()
      modifies this
      ensures isFavorite == !old(isFavorite)
      ensures selectedVariant == old(selectedVariant) && quantity == old(quantity) && alert == old(alert)
      ensures isAddingToCart == old(isAddingToCart) && selectedImage == old(selectedImage) && urlParams == old(urlParams)
    {
      isFavorite := !isFavorite;
    }

    /**
     * The synchronous part of both purchase handlers: without a variant id,
     * warn and stop; otherwise mark the add in progress and make the call.
     */
    method StartPurchase(warning: string) returns (call: Option<CartCall>)
      modifies this
      ensures call.Some? <==> HasVariantId(old(selectedVariant))
      ensures call.None? ==> (alert == Alert(Warning, "No variant selected", warning, true)
        && isAddingToCart == old(isAddingToCart))
      ensures call.Some? ==> (isAddingToCart && alert == old(alert)
        && call.value == CartCall(old(selectedVariant).value.id, old(quantity)))
      ensures selectedVariant == old(selectedVariant) && quantity == old(quantity) && isFavorite == old(isFavorite)
      ensures selectedImage == old(selectedImage) && urlParams == old(urlParams)
    {
      if !HasVariantId(selectedVariant) {
        ShowAlert(Warning, "No variant selected", warning);
        call := None;
        return;
      }
      isAddingToCart := true;
      call := Some(CartCall(selectedVariant.value.id, quantity));
    }

    method StartAddToCart() returns (call: Option<CartCall>)
      modifies this
      ensures call.Some? <==> HasVariantId(old(selectedVariant))
      ensures call.None? ==> (alert == Alert(Warning, "No variant selected", AddToCartWarning, true)
        && isAddingToCart == old(isAddingToCart))
      ensures call.Some? ==> (isAddingToCart && alert == old(alert)
        && call.value == CartCall(old(selectedVariant).value.id, old(quantity)))
      ensures selectedVariant == old(selectedVariant) && quantity == old(quantity) && isFavorite == old(isFavorite)
      ensures selectedImage == old(selectedImage) && urlParams == old(urlParams)
    {
      call := StartPurchase(AddToCartWarning);
    }

    /** After `addItemAction` settles: report success with the quantity or report the failure; never still adding. */
    method FinishAddToCart(call: CartCall, succeeded: bool)
      modifies this
      ensures !isAddingToCart
      ensures succeeded ==> alert == Alert(Success, "Success!", AddedMessage(call.quantity), true)
      ensures !succeeded ==> alert == Alert(Error, "An error occurred", "Unable to add product to cart. Please try again", true)
      ensures selectedVariant == old(selectedVariant) && quantity == old(quantity) && isFavorite == old(isFavorite)
      ensures selectedImage == old(selectedImage) && urlParams == old(urlParams)
    {
      if succeeded {
        ShowAlert(Success, "Success!", AddedMessage(call.quantity));
      } else {
        ShowAlert(Error, "An error occurred", "Unable to add product to cart. Please try again");
      }
      isAddingToCart := false;
    }

    method StartBuyNow() returns (call: Option<CartCall>)
      modifies this
      ensures call.Some? <==> HasVariantId(old(selectedVariant))
      ensures call.None? ==> (alert == Alert(Warning, "No variant selected", BuyNowWarning, true)
        && isAddingToCart == old(isAddingToCart))
      ensures call.Some? ==> (isAddingToCart && alert == old(alert)
        && call.value == CartCall(old(selectedVariant).value.id, old(quantity)))
      ensures selectedVariant == old(selectedVariant) && quantity == old(quantity) && isFavorite == old(isFavorite)
      ensures selectedImage == old(selectedImage) && urlParams == old(urlParams)
    {
      call := StartPurchase(BuyNowWarning);
    }

    /** After `addItemAction` settles: go to the channel's cart, or report the failure; never still adding. */
    method FinishBuyNow(call: CartCall, succeeded: bool) returns (navigateTo: Option<string>)
      modifies this
      ensures !isAddingToCart
      ensures succeeded ==> navigateTo == Some("/" + channel + "/cart") && alert == old(alert)
      ensures !succeeded ==> (navigateTo.None?
        && alert == Alert(Error, "An error occurred", "Unable to complete purchase. Please try again", true))
      ensures selectedVariant == old(selectedVariant) && quantity == old(quantity) && isFavorite == old(isFavorite)
      ensures selectedImage == old(selectedImage) && urlParams == old(urlParams)
    {
      if succeeded {
        navigateTo := Some("/" + channel + "/cart");
      } else {
        ShowAlert(Error, "An error occurred", "Unable to complete purchase. Please try again");
        navigateTo := None;
      }
      isAddingToCart := false;
    }
  }

  /** One stepper press on a quantity: plus adds one, minus is `Math.max(1, quantity - 1)`. */
  function Stepped(q: nat, up: bool): nat {
    if up then q + 1 else if q - 1 > 1 then q - 1 else 1
  }

  /** The quantity after a run of presses (true is plus, false is minus), from quantity `q`. */
  function AfterPresses(q: nat, presses: seq<bool>): (r: nat)
    ensures q >= 1 ==> r >= 1
    ensures r <= q + |presses|
    decreases |presses|
  {
    if |presses| == 0 then q else AfterPresses(Stepped(q, presses[0]), presses[1..])
  }

  /** Pressing minus at least as often as the quantity is above one brings it down to exactly one. */
  lemma {:induction false} MinusRunReachesOne(q: nat, n: nat)
    requires 1 <= q <= n + 1
    ensures AfterPresses(q, seq(n, _ => false)) == 1
    decreases n
  {
    var presses := seq(n, _ => false);
    if n > 0 {
      assert presses[1..] == seq(n - 1, _ => false);
      MinusRunReachesOne(Stepped(q, false), n - 1);
    }
  }

  /** Pressing plus n times adds exactly n. */
  lemma {:induction false} PlusRunAdds(q: nat, n: nat)
    ensures AfterPresses(q, seq(n, _ => true)) == q + n
    decreases n
  {
    var presses := seq(n, _ => true);
    if n > 0 {
      assert presses[1..] == seq(n - 1, _ => true);
      PlusRunAdds(q + 1, n - 1);
    }
  }

  /** Any sequence of stepper presses on the page keeps the quantity at one or more, and nothing else changes. */
  method StepperNeverBelowOne(p: Page, presses: seq<bool>)
    requires p.Valid()
    modifies p
    ensures p.Valid() && p.quantity == AfterPresses(old(p.quantity), presses)
    ensures p.selectedVariant == old(p.selectedVariant) && p.isAddingToCart == old(p.isAddingToCart) && p.alert == old(p.alert)
    ensures p.isFavorite == old(p.isFavorite) && p.selectedImage == old(p.selectedImage) && p.urlParams == old(p.urlParams)
  {
    var i := 0;
    while i < |presses|
      invariant 0 <= i <= |presses| && p.Valid()
      invariant AfterPresses(p.quantity, presses[i..]) == AfterPresses(old(p.quantity), presses)
      invariant p.selectedVariant == old(p.selectedVariant) && p.isAddingToCart == old(p.isAddingToCart) && p.alert == old(p.alert)
      invariant p.isFavorite == old(p.isFavorite) && p.selectedImage == old(p.selectedImage) && p.urlParams == old(p.urlParams)
    {
      assert presses[i..][1..] == presses[i + 1..];
      if presses[i] {
        p.Increment();
      } else {
        p.Decrement();
      }
      i := i + 1;
    }
    assert presses[i..] == [];
  }

  /** A full add-to-cart: the call carries the quantity, and the flag is clear afterwards whatever happened. */
  method AddToCartRoundTrip(p: Page, succeeded: bool) returns (call: Option<CartCall>)
    requires p.Valid() && HasVariantId(p.selectedVariant)
    modifies p
    ensures call.Some? && call.value.quantity == old(p.quantity) && call.value.variantId == old(p.selectedVariant).value.id
    ensures !p.isAddingToCart && p.Valid()
    ensures succeeded ==> p.alert.kind == Success && p.alert.message == AddedMessage(old(p.quantity))
    ensures !succeeded ==> p.alert.kind == Error
  {
    call := p.StartAddToCart();
    p.FinishAddToCart(call.value, succeeded);
  }
}
