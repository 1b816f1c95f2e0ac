/** The shared cart context: at most one cart at a time and the
    append-only list of placed orders. */
module Cart {
  import opened Common

  /** One entry of a cart's `items` record, in the record's key order. */
  datatype ItemCount = ItemCount(item: string, count: nat)

  datatype CartItem = CartItem(
    expectedKgs: nat,
    serviceId: string,
    serviceName: string,
    items: seq<ItemCount>,
    total: int,
    selectedSlot: string)

  datatype Status = Ordered | PickedUp | InProgress | Delivered | Cancelled

  /** An order; `status` is optional because the checkout screen never
      sets it. */
  datatype Order = Order(
    id: string,
    serviceName: string,
    totalItems: int,
    totalPrice: int,
    placedAt: string,
    selectedSlot: string,
    status: Option<Status>)

  /** `Object.values(items).reduce((a, b) => a + b, 0)`. */
  function TotalCount(items: seq<ItemCount>): nat {
    if items == [] then 0 else TotalCount(items[..|items| - 1]) + items[|items| - 1].count
  }

  /** Every count is below the total, and the total is zero exactly when
      every count is. */
  lemma {:induction false} TotalCountBounds(items: seq<ItemCount>)
    ensures forall k :: 0 <= k < |items| ==> items[k].count <= TotalCount(items)
    ensures TotalCount(items) == 0 <==> forall k :: 0 <= k < |items| ==> items[k].count == 0
  {
    if items != [] {
      TotalCountBounds(items[..|items| - 1]);
      assert forall k :: 0 <= k < |items| - 1 ==> items[..|items| - 1][k] == items[k];
    }
  }

  /** The context's value, and the operations it exposes. */
  datatype CartState = CartState(cart: Option<CartItem>, orders: seq<Order>)

  datatype CartOp = Set(newCart: Option<CartItem>) | Reset | Add(order: Order)

  const Initial := CartState(None, [])

  function Apply(s: CartState, op: CartOp): CartState {
    match op
    case Set(c) => s.(cart := c)
    case Reset => s.(cart := None)
    case Add(o) => s.(orders := s.orders + [o])
  }

  function Run(s: CartState, ops: seq<CartOp>): CartState
    decreases |ops|
  {
    if ops == [] then s else Run(Apply(s, ops[0]), ops[1..])
  }

  function Added(ops: seq<CartOp>): seq<Order> {
    if ops == [] then []
    else (if ops[0].Add? then [ops[0].order] else []) + Added(ops[1..])
  }

  /** No sequence of context operations removes or alters a placed order:
      the orders afterwards are the orders before, followed by the orders
      added, in the order they were added. */
  lemma {:induction false} OrdersAppendOnly(s: CartState, ops: seq<CartOp>)
    ensures Run(s, ops).orders == s.orders + Added(ops)
    decreases |ops|
  {
    if ops != [] {
      OrdersAppendOnly(Apply(s, ops[0]), ops[1..]);
    }
  }

  /** The provider: `cart` and `orders` are its two pieces of state. */
  class CartStore {
    var cart: Option<CartItem>
    var orders: seq<Order>

    function State(): CartState
      reads this
    {
      CartState(cart, orders)
    }

    /** No cart and no orders to begin with. */
    constructor ()
      ensures State() == Initial
    {
      cart := None;
      orders := [];
    }

    /** setCart replaces the whole cart value, without merging. */
    method SetCart(c: Option<CartItem>)
      modifies this
      ensures cart == c && orders == old(orders)
      ensures State() == Apply(old(State()), Set(c))
    {
      cart := c;
    }

    /** resetCart empties the cart and keeps the orders. */
    method ResetCart()
      modifies this
      ensures cart == None && orders == old(orders)
      ensures State() == Apply(old(State()), Reset)
    {
      cart := None;
    }

    /** addOrder appends at the end and leaves earlier orders as they were. */
    method AddOrder(o: Order)
      modifies this
      ensures orders == old(orders) + [o] && cart == old(cart)
      ensures State() == Apply(old(State()), Add(o))
    {
      orders := orders + [o];
    }
  }
}
