/**
 * The cart service (jetcart/service/cart.py) and the cart functions of
 * jetcart/domain/cart.py it calls: request validation for new carts and added
 * items, the pricing that runs before a cart is saved, and the checkout guard
 * that turns a cart into an order once.
 *
 * Carts live in an in-memory map from id to `Cart` object, and orders in a
 * sequence. A cart that is read, changed and then not saved leaves the store
 * as it was. A request field is either present or missing; marshmallow's type
 * coercion is not modelled.
 */
module ServiceCart {
  import opened Wrappers
  import opened DomainCart

  /** `ORDER_STATE_CREATED` of jetcart/domain/oms.py, the state every new order starts in. */
  const ORDER_STATE_CREATED: int := 0

  /** The status code the service attaches to a validation error. */
  const VALIDATION_STATUS: int := 400

  /** One element of a request's `items` list: sku, quantity and unit_price, each present or not. */
  datatype ItemRequest = ItemRequest(sku: Option<string>, quantity: Option<int>, unitPrice: Option<int>)

  /** The body of a create-cart request: the `items` list, present or not. */
  datatype CartRequest = CartRequest(items: Option<seq<ItemRequest>>)

  datatype Order = Order(id: nat, cartId: nat, state: int)

  datatype ServiceError =
    | ValidationError(status: int)
    | InvalidCartId       // ValueError: no cart with this id
    | AlreadyCheckedOut   // ValueError: the cart is already checked out
    | PriceCalculationFailed(error: PriceError)  // `Cart.calculate` raised; nothing is saved

  /** `CartItemSchema().load` followed by `CartItem(**item)`: all three fields are required. */
  function LoadItem(req: ItemRequest): (r: Option<CartItem>)
    ensures r.Some? <==> req.sku.Some? && req.quantity.Some? && req.unitPrice.Some?
    ensures r.Some? ==>
              r.value.sku == req.sku.value && r.value.quantity == req.quantity.value && r.value.unitPrice == req.unitPrice.value
    ensures r.Some? ==> r.value.salesTaxType == None && r.value.unitSalesTax == 0.0
  {
    if req.sku.Some? && req.quantity.Some? && req.unitPrice.Some? then
      Some(NewItem(req.sku.value, req.quantity.value, req.unitPrice.value))
    else
      None
  }

  /** Loads every item of a list, failing when any one of them fails. */
  function LoadItems(reqs: seq<ItemRequest>): (r: Option<seq<CartItem>>)
    ensures r.Some? <==> forall i :: 0 <= i < |reqs| ==> LoadItem(reqs[i]).Some?
    ensures r.Some? ==> |r.value| == |reqs| && forall i :: 0 <= i < |reqs| ==> r.value[i] == LoadItem(reqs[i]).value
  {
    if reqs == [] then Some([])
    else
      match (LoadItem(reqs[0]), LoadItems(reqs[1..]))
      case (Some(item), Some(rest)) => Some([item] + rest)
      case _ => None
  }

  /** `CartSchema().load`: `items` must be present and hold at least one valid item. */
  function LoadCart(req: CartRequest): (r: Option<seq<CartItem>>)
    ensures r.Some? <==> req.items.Some? && |req.items.value| >= 1
                         && forall i :: 0 <= i < |req.items.value| ==> LoadItem(req.items.value[i]).Some?
    ensures r.Some? ==> |r.value| == |req.items.value| >= 1
  {
    if req.items.None? || |req.items.value| < 1 then None else LoadItems(req.items.value)
  }

  /** A cart request without items, or with an empty list, is rejected. */
  lemma LoadCartNeedsItems(req: CartRequest)
    requires req.items.None? || req.items.value == []
    ensures LoadCart(req).None?
  {
  }

  class CartService {
    var carts: map<nat, Cart>
    var nextCartId: nat
    var orders: seq<Order>

    /** Cart ids are below the next one to be handed out, no cart object is stored under two ids,
        and each order's id is its position. */
    ghost predicate Valid()
      reads this
    {
      && (forall id :: id in carts ==> id < nextCartId)
      && (forall a, b :: a in carts && b in carts && a != b ==> carts[a] != carts[b])
      && (forall i :: 0 <= i < |orders| ==> orders[i].id == i)
    }

    constructor ()
      ensures Valid() && carts == map[] && orders == []
    {
      carts := map[];
      nextCartId := 0;
      orders := [];
    }

    /**
     * `create_cart`: validates the request, prices the new cart's lines and stores
     * the cart, in state CREATED with its totals. When pricing raises, nothing is stored.
     */
    method CreateCart(req: CartRequest, lookup: TaxLookup) returns (r: Result<nat, ServiceError>)
      requires Valid()
      modifies this
      ensures Valid()
      ensures orders == old(orders)
      ensures LoadCart(req).None? ==> r == Err(ValidationError(VALIDATION_STATUS)) && carts == old(carts)
      ensures LoadCart(req).Some? && Calculated(LoadCart(req).value, lookup).Err? ==>
                r == Err(PriceCalculationFailed(Calculated(LoadCart(req).value, lookup).error)) && carts == old(carts)
      ensures LoadCart(req).Some? && Calculated(LoadCart(req).value, lookup).Ok? ==>
                && r.Ok? && r.value !in old(carts) && r.value in carts
                && carts == old(carts)[r.value := carts[r.value]]
                && fresh(carts[r.value])
                && carts[r.value].items == LinesAfterPricing(LoadCart(req).value, lookup)
                && carts[r.value].value == Some(Calculated(LoadCart(req).value, lookup).value)
                && carts[r.value].state == CART_STATE_CREATED
    {
      var items := LoadCart(req);
      if items.None? {
        return Err(ValidationError(VALIDATION_STATUS));
      }
      var cart := new Cart(items.value);
      var outcome := cart.Calculate(lookup);
      if outcome.Err? {
        return Err(PriceCalculationFailed(outcome.error));
      }
      var id := nextCartId;
      carts := carts[id := cart];
      nextCartId := nextCartId + 1;
      r := Ok(id);
    }

    /**
     * `add_items`: validates each item first, then looks the cart up; an empty list
     * leaves the cart as it is. Otherwise a copy read back from the store gets the
     * lines merged as `Cart.add_items` does and is priced again; only when pricing
     * succeeds does the copy replace the stored cart.
     */
    method AddItems(cartId: nat, reqs: seq<ItemRequest>, lookup: TaxLookup)
      returns (r: Result<seq<CartItem>, ServiceError>)
      requires Valid()
      modifies this
      ensures Valid()
      ensures orders == old(orders) && nextCartId == old(nextCartId)
      ensures LoadItems(reqs).None? ==> r == Err(ValidationError(VALIDATION_STATUS)) && carts == old(carts)
      ensures LoadItems(reqs).Some? && cartId !in old(carts) ==> r == Err(InvalidCartId) && carts == old(carts)
      ensures LoadItems(reqs).Some? && cartId in old(carts) && reqs == [] ==>
                r == Ok(old(carts[cartId].items)) && carts == old(carts)
      ensures LoadItems(reqs).Some? && cartId in old(carts) && reqs != [] ==>
                var merged := AddedItems(old(carts[cartId].items), LoadItems(reqs).value);
                && (Calculated(merged, lookup).Err? ==>
                      r == Err(PriceCalculationFailed(Calculated(merged, lookup).error)) && carts == old(carts))
                && (Calculated(merged, lookup).Ok? ==>
                      && r == Ok(LinesAfterPricing(merged, lookup))
                      && cartId in carts && carts == old(carts)[cartId := carts[cartId]]
                      && fresh(carts[cartId])
                      && carts[cartId].items == r.value
                      && carts[cartId].value == Some(Calculated(merged, lookup).value))
      ensures cartId in old(carts) ==> cartId in carts && carts[cartId].state == old(carts[cartId].state)
    {
      var items := LoadItems(reqs);
      if items.None? {
        return Err(ValidationError(VALIDATION_STATUS));
      }
      if cartId !in carts {
        return Err(InvalidCartId);
      }
      if reqs == [] {
        return Ok(carts[cartId].items);
      }
      r := MergeAndPrice(cartId, items.value, lookup);
    }

    /** The non-empty branch of `add_items_to_cart`: merge into a copy, price it, save it. */
    method MergeAndPrice(cartId: nat, items: seq<CartItem>, lookup: TaxLookup)
      returns (r: Result<seq<CartItem>, ServiceError>)
      requires Valid() && cartId in carts
      modifies this
      ensures Valid()
      ensures orders == old(orders) && nextCartId == old(nextCartId)
      ensures var merged := AddedItems(old(carts[cartId].items), items);
              && (Calculated(merged, lookup).Err? ==>
                    r == Err(PriceCalculationFailed(Calculated(merged, lookup).error)) && carts == old(carts))
              && (Calculated(merged, lookup).Ok? ==>
                    && r == Ok(LinesAfterPricing(merged, lookup))
                    && cartId in carts && carts == old(carts)[cartId := carts[cartId]]
                    && fresh(carts[cartId])
                    && carts[cartId].items == r.value
                    && carts[cartId].value == Some(Calculated(merged, lookup).value))
      ensures cartId in carts && carts[cartId].state == old(carts[cartId].state)
    {
      var stored := carts[cartId];
      var work := new Cart.Load(stored.items, stored.state, stored.value);
      work.AddItems(items);
      var outcome := work.Calculate(lookup);
      if outcome.Err? {
        return Err(PriceCalculationFailed(outcome.error));
      }
      carts := carts[cartId := work];
      r := Ok(work.items);
    }

    /**
     * `checkout`: an unknown cart and a cart already CHECKED_OUT are refused. Any
     * other cart gets exactly one new order, in state CREATED, and moves to CHECKED_OUT.
     */
    method Checkout(cartId: nat) returns (r: Result<Order, ServiceError>)
      requires Valid()
      modifies this, if cartId in carts then {carts[cartId]} else {}
      ensures Valid()
      ensures carts == old(carts) && nextCartId == old(nextCartId)
      ensures cartId !in carts ==> r == Err(InvalidCartId) && orders == old(orders)
      ensures cartId in carts && old(carts[cartId].state) == CART_STATE_CHECKED_OUT ==>
                r == Err(AlreadyCheckedOut) && orders == old(orders) && carts[cartId].state == CART_STATE_CHECKED_OUT
      ensures cartId in carts && old(carts[cartId].state) != CART_STATE_CHECKED_OUT ==>
                && r == Ok(Order(|old(orders)|, cartId, ORDER_STATE_CREATED))
                && orders == old(orders) + [r.value]
                && carts[cartId].state == CART_STATE_CHECKED_OUT
      ensures cartId in carts ==> carts[cartId].items == old(carts[cartId].items)
      ensures cartId in carts ==> carts[cartId].value == old(carts[cartId].value)
    {
      if cartId !in carts {
        return Err(InvalidCartId);
      }
      var cart := carts[cartId];
      if cart.state == CART_STATE_CHECKED_OUT {
        return Err(AlreadyCheckedOut);
      }
      var order := Order(|orders|, cartId, ORDER_STATE_CREATED);
      orders := orders + [order];
      cart.state := CART_STATE_CHECKED_OUT;
      r := Ok(order);
    }
  }

  /** Whatever the first checkout of a cart returns, a second one fails and creates no order. */
  method CheckoutTwice(service: CartService, cartId: nat) returns (first: Result<Order, ServiceError>,
                                                                   second: Result<Order, ServiceError>)
    requires service.Valid()
    modifies service, if cartId in service.carts then {service.carts[cartId]} else {}
    ensures second.Err?
    ensures |service.orders| <= |old(service.orders)| + 1
  {
    first := service.Checkout(cartId);
    second := service.Checkout(cartId);
  }
}
