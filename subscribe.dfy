/** The subscribe dialog of `components/SubscribeModal.tsx`: what it shows
    for the listed products and prices, and the checkout gate with its
    per-price loading marker. The checkout post and the payment library are
    parameters. */
module Subscribe {

  import opened Wrappers
  import opened Types
  import opened Modals

  /** One entry of the product listing. */
  datatype Entry = NoPrices(productId: string) | PriceButton(price: Price, disabled: bool)

  /** The dialog body. */
  datatype Content = NoProducts | AlreadySubscribed | Listing(entries: seq<Entry>)

  /** What `postData` to the checkout-session route came back with. */
  datatype PostOutcome = Session(sessionId: string) | PostFailed(message: string)

  /** A price button's `disabled` flag: `isLoading || price.id === priceIdLoading`.
      An unset marker matches no price. */
  predicate Disabled(price: Price, isLoading: bool, priceIdLoading: Option<string>)
  {
    isLoading || priceIdLoading == Some(price.id)
  }

  /** `!product.prices?.length`. */
  predicate LacksPrices(product: Product)
  {
    product.prices.None? || |product.prices.value| == 0
  }

  /** `prices.map(price => <Button …>)`: one button per price, in order. */
  function PriceButtons(prices: seq<Price>, isLoading: bool, priceIdLoading: Option<string>): (r: seq<Entry>)
    ensures |r| == |prices|
    ensures forall i :: 0 <= i < |prices| ==>
      r[i] == PriceButton(prices[i], Disabled(prices[i], isLoading, priceIdLoading))
  {
    if prices == [] then []
    else [PriceButton(prices[0], Disabled(prices[0], isLoading, priceIdLoading))]
         + PriceButtons(prices[1..], isLoading, priceIdLoading)
  }

  /** What one product contributes to the listing. */
  function ProductEntries(product: Product, isLoading: bool, priceIdLoading: Option<string>): (r: seq<Entry>)
    ensures |r| == EntryCount(product)
    ensures LacksPrices(product) ==> r == [NoPrices(product.id)]
    ensures !LacksPrices(product) ==> forall i :: 0 <= i < |r| ==> r[i].PriceButton? && r[i].price == product.prices.value[i]
  {
    if LacksPrices(product) then [NoPrices(product.id)]
    else PriceButtons(product.prices.value, isLoading, priceIdLoading)
  }

  /** How many entries a product contributes: one placeholder, or one per price. */
  function EntryCount(product: Product): nat
  {
    if LacksPrices(product) then 1 else |product.prices.value|
  }

  /** The number of entries of a whole product list. */
  function TotalEntryCount(products: seq<Product>): nat
  {
    if products == [] then 0 else EntryCount(products[0]) + TotalEntryCount(products[1..])
  }

  /** The products' entries, concatenated in product order. Every button's
      `disabled` flag is exactly `Disabled` of its price. */
  function Entries(products: seq<Product>, isLoading: bool, priceIdLoading: Option<string>): (r: seq<Entry>)
    ensures |r| == TotalEntryCount(products)
    ensures forall k :: 0 <= k < |r| && r[k].PriceButton? ==>
      r[k].disabled == Disabled(r[k].price, isLoading, priceIdLoading)
  {
    if products == [] then []
    else ProductEntries(products[0], isLoading, priceIdLoading)
         + Entries(products[1..], isLoading, priceIdLoading)
  }

  /** The listing of two product lists back to back is the two listings
      back to back: each product yields its own entries, in order. */
  lemma {:induction false} EntriesAppend(ps: seq<Product>, qs: seq<Product>,
                                         isLoading: bool, priceIdLoading: Option<string>)
    ensures Entries(ps + qs, isLoading, priceIdLoading)
         == Entries(ps, isLoading, priceIdLoading) + Entries(qs, isLoading, priceIdLoading)
    decreases |ps|
  {
    if ps == [] {
      assert ps + qs == qs;
    } else {
      assert (ps + qs)[1..] == ps[1..] + qs;
      EntriesAppend(ps[1..], qs, isLoading, priceIdLoading);
    }
  }

  /** A product without prices is one placeholder; otherwise it is one button
      per price, in price order. */
  lemma ProductListing(product: Product, isLoading: bool, priceIdLoading: Option<string>)
    ensures LacksPrices(product) ==>
      Entries([product], isLoading, priceIdLoading) == [NoPrices(product.id)]
    ensures !LacksPrices(product) ==>
      var r := Entries([product], isLoading, priceIdLoading);
      && |r| == |product.prices.value|
      && forall i :: 0 <= i < |r| ==>
           r[i] == PriceButton(product.prices.value[i],
                               Disabled(product.prices.value[i], isLoading, priceIdLoading))
  {
    assert [product][1..] == [];
  }

  /** The dialog body: a subscription overrides everything; otherwise an
      empty product list reads "No products available.". */
  function ModalContent(products: seq<Product>, subscription: Option<Subscription>,
                        isLoading: bool, priceIdLoading: Option<string>): (c: Content)
    ensures subscription.Some? ==> c == AlreadySubscribed
    ensures subscription.None? && products == [] ==> c == NoProducts
    ensures subscription.None? && products != [] ==>
      c == Listing(Entries(products, isLoading, priceIdLoading)) && |c.entries| == TotalEntryCount(products)
  {
    var content :=
      if |products| > 0 then Listing(Entries(products, isLoading, priceIdLoading))
      else NoProducts;
    if subscription.Some? then AlreadySubscribed else content
  }

  class SubscribeDialog {
    const modal: SubscribeModal
    var priceIdLoading: Option<string>

    constructor (modal: SubscribeModal)
      ensures this.modal == modal && priceIdLoading == None
    {
      this.modal := modal;
      priceIdLoading := None;
    }

    /** The dialog's `onChange`: closing closes the store. */
    method OnChange(open: bool)
      modifies modal
      ensures modal.isOpen == (old(modal.isOpen) && open)
    {
      if !open {
        modal.OnClose();
      }
    }

    /** `handleCheckout(price)`. The marker is this price's id while the
        checkout post is in flight and is cleared on every way out. With
        `checkoutReady` false the payment library did not load and no
        redirect happens. */
    method HandleCheckout(price: Price, user: Option<User>, subscription: Option<Subscription>,
                          post: PostOutcome, checkoutReady: bool)
      returns (posted: Option<Price>, markerWhilePosting: Option<string>,
               redirect: Option<string>, notice: Option<Notice>)
      modifies this`priceIdLoading
      ensures priceIdLoading == None
      ensures user.None? ==> notice == Some(ErrorToast("Must be logged in"))
      ensures user.Some? && subscription.Some? ==> notice == Some(InfoToast("Already subscribed"))
      ensures posted.Some? <==> user.Some? && subscription.None?
      ensures posted.Some? ==> posted.value == price && markerWhilePosting == Some(price.id)
      ensures redirect.Some? <==> posted.Some? && post.Session? && checkoutReady
      ensures redirect.Some? ==> redirect.value == post.sessionId
      ensures posted.Some? && post.PostFailed? ==> notice == Some(ErrorToast(post.message))
      ensures posted.Some? && post.Session? ==> notice == None
    {
      posted, markerWhilePosting, redirect, notice := None, None, None, None;
      priceIdLoading := Some(price.id);

      if user.None? {
        priceIdLoading := None;
        notice := Some(ErrorToast("Must be logged in"));
        return;
      }

      if subscription.Some? {
        priceIdLoading := None;
        notice := Some(InfoToast("Already subscribed"));
        return;
      }

      posted, markerWhilePosting := Some(price), priceIdLoading;
      match post {
        case PostFailed(message) =>
          notice := Some(ErrorToast(message));
        case Session(sessionId) =>
          if checkoutReady {
            redirect := Some(sessionId);
          }
      }
      priceIdLoading := None;
    }
  }
}
