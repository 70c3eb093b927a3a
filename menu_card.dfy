/**
  The menu card of src/components/customer/MenuCard.tsx: the direct
  "quick add" of an item without options, and the item modal, whose state is
  the selected variant, the set of selected add-on ids and a quantity, and
  whose "Add to cart" button turns that state into one cart line.
 */
module MenuCard {
  import opened Common
  import opened Types
  import opened Cart

  /** An item needs the modal iff it has a variant or an add-on. */
  predicate NeedsModal(item: MenuItem) {
    |item.variants| > 0 || |item.addOns| > 0
  }

  /** The entry `quickAdd` hands to the cart: one plain unit of the item. */
  function QuickEntry(item: MenuItem): CartEntry {
    CartEntry(item.id, item.name, item.imageUrl, item.isVeg, item.basePrice, None, None, 0, [], 1)
  }

  datatype QuickAddOutcome = OpenedModal | AddedToCart

  /** `quickAdd`: opens the modal when the item has options, else adds one unit. */
  method QuickAdd(item: MenuItem, cafeId: string, cart: CartStore, freshId: string) returns (outcome: QuickAddOutcome)
    requires cart.Valid()
    modifies cart
    ensures cart.Valid()
    ensures outcome == OpenedModal <==> NeedsModal(item)
    ensures NeedsModal(item) ==> cart.items == old(cart.items) && cart.cafeId == old(cart.cafeId)
    ensures !NeedsModal(item) ==>
      cart.items == old(cart.items) + [Priced(QuickEntry(item), freshId)] && cart.cafeId == Some(cafeId)
  {
    if NeedsModal(item) {
      return OpenedModal;
    }
    cart.SetCafeId(cafeId);
    cart.AddItem(QuickEntry(item), freshId);
    outcome := AddedToCart;
  }

  /** A quick-added line is one unit at the base price, with no variant and no add-ons. */
  lemma QuickAddLine(item: MenuItem, freshId: string)
    ensures var c := Priced(QuickEntry(item), freshId);
      && c.quantity == 1 && c.variantId == None && c.variantName == None
      && c.variantPriceDelta == 0 && c.addOns == []
      && c.unitPrice == item.basePrice && c.totalPrice == item.basePrice
  {
  }

  /** `variants.find(v => v.is_default) ?? variants[0] ?? null`. */
  function DefaultVariant(variants: seq<Variant>): (r: Option<Variant>)
    ensures r.None? <==> variants == []
    ensures r.Some? ==> r.value in variants
    ensures (exists k :: 0 <= k < |variants| && variants[k].isDefault) ==>
      r.Some? && r.value.isDefault
    ensures (forall k :: 0 <= k < |variants| ==> !variants[k].isDefault) && variants != [] ==>
      r == Some(variants[0])
  {
    match FindIndex(variants, (v: Variant) => v.isDefault)
    case Some(i) => Some(variants[i])
    case None => if variants == [] then None else Some(variants[0])
  }

  /** The first default variant is the one chosen, whatever follows it. */
  lemma DefaultVariantIsFirstDefault(variants: seq<Variant>, k: nat)
    requires k < |variants| && variants[k].isDefault
    requires forall j :: 0 <= j < k ==> !variants[j].isDefault
    ensures DefaultVariant(variants) == Some(variants[k])
  {
    var i := FindIndex(variants, (v: Variant) => v.isDefault);
    assert i.Some?;
    assert !(i.value < k) && !(k < i.value);
  }

  /** `add_ons.find(a => a.id === id)`. */
  function FindAddOn(addOns: seq<AddOn>, id: string): (r: Option<AddOn>)
    ensures r.Some? ==> r.value in addOns && r.value.id == id
    ensures r.None? <==> forall k :: 0 <= k < |addOns| ==> addOns[k].id != id
  {
    match FindIndex(addOns, (a: AddOn) => a.id == id)
    case Some(i) => Some(addOns[i])
    case None => None
  }

  /** The reduction behind `addOnsTotal`: an id that matches no add-on contributes 0. */
  function SelectedTotal(addOns: seq<AddOn>, ids: seq<string>): int {
    if ids == [] then 0
    else (match FindAddOn(addOns, ids[0]) case Some(a) => a.price case None => 0) + SelectedTotal(addOns, ids[1..])
  }

  predicate AllKnown(addOns: seq<AddOn>, ids: seq<string>) {
    forall k :: 0 <= k < |ids| ==> FindAddOn(addOns, ids[k]).Some?
  }

  /** The cart add-ons `handleAdd` builds: id, name and price of each selected add-on, in selection order. */
  function ChosenAddOns(addOns: seq<AddOn>, ids: seq<string>): (r: seq<AddOnChoice>)
    requires AllKnown(addOns, ids)
    ensures |r| == |ids|
    ensures forall k :: 0 <= k < |r| ==>
      r[k].id == ids[k] && AddOn(r[k].id, r[k].name, r[k].price) in addOns
  {
    if ids == [] then []
    else
      var a := FindAddOn(addOns, ids[0]).value;
      [AddOnChoice(a.id, a.name, a.price)] + ChosenAddOns(addOns, ids[1..])
  }

  /** The add-ons handed to the cart cost exactly what the modal shows for them. */
  lemma {:induction false} ChosenAddOnsTotal(addOns: seq<AddOn>, ids: seq<string>)
    requires AllKnown(addOns, ids)
    ensures SumPrices(ChosenAddOns(addOns, ids)) == SelectedTotal(addOns, ids)
  {
    if ids != [] {
      assert AllKnown(addOns, ids[1..]);
      ChosenAddOnsTotal(addOns, ids[1..]);
      var r := ChosenAddOns(addOns, ids);
      assert r[1..] == ChosenAddOns(addOns, ids[1..]);
    }
  }

  /**
    The update `toggleAddOn` applies to the selection set, which is kept in
    insertion order as a JavaScript `Set` is.
   */
  function Toggled(selected: seq<string>, id: string): seq<string> {
    if id in selected then Filter(selected, (x: string) => x != id) else selected + [id]
  }

  /** A toggle flips the membership of `id` and of nothing else, and keeps the selection a set. */
  lemma ToggleFlips(selected: seq<string>, id: string)
    requires NoDuplicates(selected)
    ensures NoDuplicates(Toggled(selected, id))
    ensures id in Toggled(selected, id) <==> id !in selected
    ensures forall x :: x != id ==> (x in Toggled(selected, id) <==> x in selected)
  {
    if id in selected {
      FilterNoDuplicates(selected, (x: string) => x != id);
    }
  }

  /** Toggling twice restores the set; an id that was not selected leaves the very same sequence. */
  lemma ToggleTwice(selected: seq<string>, id: string)
    requires NoDuplicates(selected)
    ensures forall x :: x in Toggled(Toggled(selected, id), id) <==> x in selected
    ensures id !in selected ==> Toggled(Toggled(selected, id), id) == selected
  {
    ToggleFlips(selected, id);
    ToggleFlips(Toggled(selected, id), id);
    if id !in selected {
      var p := (x: string) => x != id;
      FilterAppend(selected, [id], p);
      FilterKeepsAll(selected, p);
      assert Filter([id], p) == [];
    }
  }

  /** `Math.max(1, q - 1)`. */
  function Decremented(q: int): (r: int)
    ensures r >= 1
    ensures q > 1 ==> r == q - 1
    ensures q <= 2 ==> r == 1
  {
    if q - 1 > 1 then q - 1 else 1
  }

  /** `ItemModal`'s state. */
  class ItemModal {
    const item: MenuItem
    var selectedVariant: Option<Variant>
    var selectedAddOns: seq<string>
    var quantity: int

    ghost predicate Valid()
      reads this
    {
      && quantity >= 1
      && NoDuplicates(selectedAddOns)
      && AllKnown(item.addOns, selectedAddOns)
      && (selectedVariant.Some? ==> selectedVariant.value in item.variants)
    }

    constructor (item: MenuItem)
      ensures Valid()
      ensures this.item == item
      ensures selectedVariant == DefaultVariant(item.variants)
      ensures selectedAddOns == [] && quantity == 1
    {
      this.item := item;
      selectedVariant := DefaultVariant(item.variants);
      selectedAddOns := [];
      quantity := 1;
    }

    /** `toggleAddOn(id)`, for an id the modal lists (one of the item's add-ons). */
    method ToggleAddOn(id: string)
      requires Valid()
      requires FindAddOn(item.addOns, id).Some?
      modifies this
      ensures Valid()
      ensures selectedAddOns == Toggled(old(selectedAddOns), id)
      ensures selectedVariant == old(selectedVariant) && quantity == old(quantity)
    {
      ToggleFlips(selectedAddOns, id);
      selectedAddOns := Toggled(selectedAddOns, id);
    }

    /** The minus button. */
    method Decrement()
      requires Valid()
      modifies this
      ensures Valid()
      ensures quantity == Decremented(old(quantity))
      ensures selectedVariant == old(selectedVariant) && selectedAddOns == old(selectedAddOns)
    {
      quantity := Decremented(quantity);
    }

    /** The plus button. */
    method Increment()
      requires Valid()
      modifies this
      ensures Valid()
      ensures quantity == old(quantity) + 1
      ensures selectedVariant == old(selectedVariant) && selectedAddOns == old(selectedAddOns)
    {
      quantity := quantity + 1;
    }

    /** A click on one of the item's variants. */
    method SelectVariant(v: Variant)
      requires Valid()
      requires v in item.variants
      modifies this
      ensures Valid()
      ensures selectedVariant == Some(v)
      ensures selectedAddOns == old(selectedAddOns) && quantity == old(quantity)
    {
      selectedVariant := Some(v);
    }

    function VariantDelta(): int
      reads this
    {
      match selectedVariant
      case Some(v) => v.priceDelta
      case None => 0
    }

    /** `addOnsTotal`. */
    function AddOnsTotal(): int
      reads this
    {
      SelectedTotal(item.addOns, selectedAddOns)
    }

    /** `unitPrice`. */
    function UnitPrice(): int
      reads this
    {
      item.basePrice + VariantDelta() + AddOnsTotal()
    }

    /** `totalPrice`, the amount shown on the "Add to cart" button. */
    function TotalPrice(): int
      reads this
    {
      UnitPrice() * quantity
    }

    /** The entry `handleAdd` hands to the cart. */
    function Entry(): CartEntry
      requires Valid()
      reads this
    {
      CartEntry(item.id, item.name, item.imageUrl, item.isVeg, item.basePrice,
                match selectedVariant case Some(v) => Some(v.id) case None => None,
                match selectedVariant case Some(v) => Some(v.name) case None => None,
                VariantDelta(), ChosenAddOns(item.addOns, selectedAddOns), quantity)
    }

    /**
      `handleAdd`: sets the cart's café and appends one line, which costs
      exactly the unit and total prices the modal displayed.
     */
    method HandleAdd(cart: CartStore, cafeId: string, freshId: string)
      requires Valid() && cart.Valid()
      modifies cart
      ensures cart.Valid()
      ensures cart.items == old(cart.items) + [Priced(Entry(), freshId)]
      ensures cart.cafeId == Some(cafeId)
      ensures cart.items[|cart.items| - 1].unitPrice == UnitPrice()
      ensures cart.items[|cart.items| - 1].totalPrice == TotalPrice()
    {
      cart.SetCafeId(cafeId);
      ChosenAddOnsTotal(item.addOns, selectedAddOns);
      cart.AddItem(Entry(), freshId);
    }
  }

  /**
    The price the modal shows is the price the cart records: for any item,
    selection of known add-ons, variant and quantity, the cart line built from
    them has unit price base + delta + add-on total, and that times quantity
    as its total.
   */
  lemma ModalPriceIsCartPrice(item: MenuItem, variant: Option<Variant>, ids: seq<string>, quantity: int, freshId: string)
    requires AllKnown(item.addOns, ids)
    ensures var delta := match variant case Some(v) => v.priceDelta case None => 0;
      var variantId := match variant case Some(v) => Some(v.id) case None => None;
      var variantName := match variant case Some(v) => Some(v.name) case None => None;
      var c := Priced(CartEntry(item.id, item.name, item.imageUrl, item.isVeg, item.basePrice,
                                variantId, variantName, delta, ChosenAddOns(item.addOns, ids), quantity), freshId);
      && c.unitPrice == item.basePrice + delta + SelectedTotal(item.addOns, ids)
      && c.totalPrice == (item.basePrice + delta + SelectedTotal(item.addOns, ids)) * quantity
  {
    ChosenAddOnsTotal(item.addOns, ids);
  }
}
