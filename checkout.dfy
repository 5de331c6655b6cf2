/** The checkout page of app/checkout/page.tsx: the four-step counter moved by Continue
    and Back, the prices derived from the order lines and the chosen delivery, and the
    address book that a newly entered address is appended to. */
module Checkout {
  import opened Wrappers
  import opened Keyed
  import opened Sums

  datatype OrderLine = OrderLine(id: Id, name: string, price: int, image: string, quantity: int)

  function LineTotal(l: OrderLine): int { l.price * l.quantity }

  /** The two lines the page checks out. */
  function MockCartItems(): seq<OrderLine> {
    [ OrderLine("1", "Handwoven Leather Tote Bag", 89, "/placeholder.svg?height=80&width=80&text=Tote", 2),
      OrderLine("2", "Abstract Canvas Painting", 150, "/placeholder.svg?height=80&width=80&text=Art", 1) ]
  }

  /** A saved address; `kind` is the source's `type` ("home", "work", ...). */
  datatype Address = Address(
    id: Id, kind: string, name: string, street: string, city: string, state: string,
    zipCode: string, country: string, isDefault: bool)

  function AddressId(a: Address): Id { a.id }

  function MockAddresses(): seq<Address> {
    [ Address("1", "home", "John Doe", "123 Main Street, Apt 4B", "New York", "NY", "10001", "United States", true),
      Address("2", "work", "John Doe", "456 Business Ave, Suite 200", "New York", "NY", "10002", "United States", false) ]
  }

  function Steps(): seq<string> { ["Information", "Delivery", "Payment", "Review"] }

  /** `subtotal`: the sum of price times quantity over the lines. */
  function Subtotal(items: seq<OrderLine>): int {
    SumOf(items, LineTotal)
  }

  /** `shipping`: express costs 15; otherwise delivery is free from 75 on and 10 below. */
  function Shipping(selectedDelivery: string, subtotal: int): int {
    if selectedDelivery == "express" then 15 else if subtotal >= 75 then 0 else 10
  }

  datatype DeliveryOption = DeliveryOption(id: string, name: string, description: string, price: int)

  /** `deliveryOptions`, whose standard price is computed from the subtotal on its own. */
  function DeliveryOptions(subtotal: int): seq<DeliveryOption> {
    [ DeliveryOption("standard", "Standard Delivery", "5-7 business days", if subtotal >= 75 then 0 else 10),
      DeliveryOption("express", "Express Delivery", "2-3 business days", 15) ]
  }

  /** `handleNext`: advances unless the last step is shown. */
  function NextStep(step: int): int {
    if step < |Steps()| - 1 then step + 1 else step
  }

  /** `handleBack`: goes back unless the first step is shown. */
  function PrevStep(step: int): int {
    if step > 0 then step - 1 else step
  }

  /** Back is disabled on the first step; Continue is shown (rather than Place Order) on
      every step but the last. */
  predicate BackEnabled(step: int) { step != 0 }
  predicate ContinueShown(step: int) { step < |Steps()| - 1 }

  predicate ValidStep(step: int) { 0 <= step < |Steps()| }

  /** The page state the handlers change. */
  class CheckoutPage {
    var currentStep: int
    var addresses: seq<Address>
    var selectedAddress: Id
    var selectedDelivery: string

    predicate Valid()
      reads this
    {
      ValidStep(currentStep)
    }

    constructor ()
      ensures currentStep == 0 && addresses == MockAddresses()
      ensures selectedAddress == "1" && selectedDelivery == "standard"
      ensures Valid()
    {
      currentStep := 0;
      addresses := MockAddresses();
      selectedAddress := "1";
      selectedDelivery := "standard";
    }

    /** The shipping shown for the page's lines and chosen delivery. */
    function CurrentShipping(): (r: int)
      reads this
      ensures r == 0 <==> selectedDelivery != "express"
      ensures selectedDelivery == "express" ==> r == 15
    {
      MockSubtotal();
      Shipping(selectedDelivery, Subtotal(MockCartItems()))
    }

    method HandleNext()
      modifies this
      ensures currentStep == NextStep(old(currentStep))
      ensures addresses == old(addresses) && selectedAddress == old(selectedAddress)
      ensures selectedDelivery == old(selectedDelivery)
      ensures old(Valid()) ==> Valid()
    {
      if currentStep < |Steps()| - 1 {
        currentStep := currentStep + 1;
      }
    }

    method HandleBack()
      modifies this
      ensures currentStep == PrevStep(old(currentStep))
      ensures addresses == old(addresses) && selectedAddress == old(selectedAddress)
      ensures selectedDelivery == old(selectedDelivery)
      ensures old(Valid()) ==> Valid()
    {
      if currentStep > 0 {
        currentStep := currentStep - 1;
      }
    }

    /** The delivery radio group. */
    method SelectDelivery(id: string)
      modifies this
      ensures selectedDelivery == id
      ensures currentStep == old(currentStep) && addresses == old(addresses)
      ensures selectedAddress == old(selectedAddress)
    {
      selectedDelivery := id;
    }

    /** `handleAddAddress(newAddress)`; `freshId` stands for `Date.now().toString()`. */
    method HandleAddAddress(newAddress: Address, freshId: Id)
      modifies this
      ensures addresses == old(addresses) + [newAddress.(id := freshId)]
      ensures selectedAddress == freshId
      ensures currentStep == old(currentStep) && selectedDelivery == old(selectedDelivery)
      ensures Has(addresses, AddressId, selectedAddress)
    {
      var address := newAddress.(id := freshId);
      addresses := addresses + [address];
      selectedAddress := address.id;
      assert AddressId(addresses[|addresses| - 1]) == freshId;
    }
  }

  // ---------------------------------------------------------------------------------
  // Properties

  /** Continue and Back keep the step among the four steps. */
  lemma StepsStayInRange(step: int)
    requires ValidStep(step)
    ensures ValidStep(NextStep(step)) && ValidStep(PrevStep(step))
    ensures NextStep(step) == step <==> step == 3
    ensures PrevStep(step) == step <==> step == 0
  {
  }

  /** Continue then Back returns to any step before the last, Back then Continue to any
      step after the first; on the last step Continue does nothing and on the first Back
      does nothing. */
  lemma NextBackRoundTrip(step: int)
    requires ValidStep(step)
    ensures step < 3 ==> PrevStep(NextStep(step)) == step
    ensures step > 0 ==> NextStep(PrevStep(step)) == step
    ensures NextStep(3) == 3 && PrevStep(0) == 0
  {
  }

  /** The Back button is enabled exactly when Back moves, and Continue is shown exactly
      when Continue moves. */
  lemma ButtonsMatchHandlers(step: int)
    requires ValidStep(step)
    ensures BackEnabled(step) <==> PrevStep(step) != step
    ensures ContinueShown(step) <==> NextStep(step) != step
  {
  }

  /** The two mock lines come to 89 * 2 + 150 = 328. */
  lemma MockSubtotal()
    ensures Subtotal(MockCartItems()) == 328
  {
    var m := MockCartItems();
    SumOfSingleton(m[0], LineTotal);
    SumOfSingleton(m[1], LineTotal);
    SumOfAppend([m[0]], [m[1]], LineTotal);
    assert m == [m[0]] + [m[1]];
  }

  /** Shipping is 15 for express; otherwise it is 0 exactly when the subtotal reaches 75,
      and 10 below that. */
  lemma ShippingRule(selectedDelivery: string, subtotal: int)
    ensures selectedDelivery == "express" ==> Shipping(selectedDelivery, subtotal) == 15
    ensures selectedDelivery != "express" ==>
      (Shipping(selectedDelivery, subtotal) == 0 <==> subtotal >= 75) &&
      (Shipping(selectedDelivery, subtotal) == 10 <==> subtotal < 75)
  {
  }

  /** The price listed for the selected delivery option is the shipping charged. */
  lemma DeliveryOptionsAgreeWithShipping(selectedDelivery: string, subtotal: int)
    ensures forall o :: o in DeliveryOptions(subtotal) && o.id == selectedDelivery ==>
      o.price == Shipping(selectedDelivery, subtotal)
    ensures DeliveryOptions(subtotal)[1].price == 15
  {
  }

  /** Where the review step looks up the address it shows and the order sends:
      `addresses.find((a) => a.id === selectedAddress)`, the first address with the id. */
  function FindAddress(addresses: seq<Address>, id: Id): (r: Option<Address>)
    ensures r.None? <==> !Has(addresses, AddressId, id)
    ensures r.Some? ==> r.value in addresses && r.value.id == id
  {
    var i := IndexOf(addresses, AddressId, id);
    if i == -1 then None else Some(addresses[i])
  }

  /** After an address is added, looking up the selected id finds the address just
      entered, under its fresh id, unless an earlier address already had that id, in
      which case `find` still returns the earlier one. */
  lemma AddedAddressIsFound(addresses: seq<Address>, newAddress: Address, freshId: Id)
    ensures var r := addresses + [newAddress.(id := freshId)];
      FindAddress(r, freshId) ==
        if Has(addresses, AddressId, freshId) then FindAddress(addresses, freshId)
        else Some(newAddress.(id := freshId))
  {
    var r := addresses + [newAddress.(id := freshId)];
    var j := IndexOf(r, AddressId, freshId);
    assert AddressId(r[|addresses|]) == freshId;
    assert forall m :: 0 <= m < |addresses| ==> r[m] == addresses[m];
    if Has(addresses, AddressId, freshId) {
      assert j == IndexOf(addresses, AddressId, freshId);
    } else {
      assert j == |addresses|;
    }
  }
}
