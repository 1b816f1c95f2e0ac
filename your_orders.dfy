/** The order history screen: one card per placed order, in the order they
    were placed, with a coloured badge for the order's status. */
module YourOrders {
  import opened Common
  import opened Cart
  import Checkout

  /** The status's key in `statusSteps`. */
  function StatusKey(s: Status): string {
    match s
    case Ordered => "ordered"
    case PickedUp => "picked_up"
    case InProgress => "in_progress"
    case Delivered => "delivered"
    case Cancelled => "cancelled"
  }

  /** `statusSteps`: the position of a status in the order's life. */
  function StatusStep(s: Status): (n: nat)
    ensures n < 5
  {
    match s
    case Ordered => 0
    case PickedUp => 1
    case InProgress => 2
    case Delivered => 3
    case Cancelled => 4
  }

  const StepLabels: seq<string> := ["Ordered", "Picked Up", "In Progress", "Delivered", "Cancelled"]

  /** The badge text, `stepLabels[statusSteps[status]]`. */
  function StatusLabel(s: Status): string {
    StepLabels[StatusStep(s)]
  }

  /** getStatusColor, over any key; keys outside the five get '#aaa'. */
  function StatusColor(key: string): (r: string)
    ensures r == "#aaa" <==> key !in {"ordered", "picked_up", "in_progress", "delivered", "cancelled"}
  {
    if key == "ordered" then "#B5750C"
    else if key == "picked_up" then "#9752A2"
    else if key == "in_progress" then "#B3AB52"
    else if key == "delivered" then "#5BBF5F"
    else if key == "cancelled" then "#D84D50"
    else "#aaa"
  }

  /** Each status has its own step, key, label and colour, and no status
      falls through to the default colour. */
  lemma StatusesDistinct(s: Status, t: Status)
    ensures s != t ==> StatusStep(s) != StatusStep(t)
    ensures s != t ==> StatusKey(s) != StatusKey(t)
    ensures s != t ==> StatusLabel(s) != StatusLabel(t)
    ensures s != t ==> StatusColor(StatusKey(s)) != StatusColor(StatusKey(t))
    ensures StatusColor(StatusKey(s)) != "#aaa"
  {
  }

  /** `item.status ?? 'ordered'`. */
  function EffectiveStatus(o: Order): (s: Status)
    ensures o.status.None? ==> s == Ordered
    ensures o.status.Some? ==> s == o.status.value
  {
    o.status.GetOr(Ordered)
  }

  /** What one order card shows; the date formatting is not modelled, so
      the card carries the raw timestamp. */
  datatype OrderCard = OrderCard(
    serviceName: string,
    badgeColor: string,
    badgeLabel: string,
    totalItems: int,
    totalPrice: int,
    slot: string,
    placedAt: string)

  function CardOf(o: Order): (c: OrderCard)
    ensures c.badgeLabel == StatusLabel(EffectiveStatus(o))
    ensures c.badgeColor == StatusColor(StatusKey(EffectiveStatus(o)))
    ensures c.serviceName == o.serviceName && c.totalItems == o.totalItems
    ensures c.totalPrice == o.totalPrice && c.slot == o.selectedSlot && c.placedAt == o.placedAt
  {
    var s := EffectiveStatus(o);
    OrderCard(o.serviceName, StatusColor(StatusKey(s)), StatusLabel(s), o.totalItems, o.totalPrice,
              o.selectedSlot, o.placedAt)
  }

  /** "You have no orders yet." or the list of cards. */
  datatype OrdersView = NoOrders | Cards(cards: seq<OrderCard>)

  function View(orders: seq<Order>): (v: OrdersView)
    ensures v.NoOrders? <==> orders == []
    ensures v.Cards? ==> |v.cards| == |orders| && forall k :: 0 <= k < |orders| ==> v.cards[k] == CardOf(orders[k])
  {
    if |orders| == 0 then NoOrders
    else Cards(seq(|orders|, k requires 0 <= k < |orders| => CardOf(orders[k])))
  }

  /** An order placed at checkout has no status, so its card reads
      "Ordered" on an orange badge, and it shows the cart's totals. */
  lemma CheckoutOrderCard(c: CartItem, id: string, placedAt: string)
    ensures var card := CardOf(Checkout.BuildOrder(c, id, placedAt));
      && card.badgeLabel == "Ordered" && card.badgeColor == "#B5750C"
      && card.totalItems == TotalCount(c.items) && card.totalPrice == c.total
      && card.slot == c.selectedSlot && card.serviceName == c.serviceName
  {
  }

  /** After an order is placed, the list shows the earlier cards unchanged
      followed by the new order's card. */
  lemma ViewAfterPlacing(orders: seq<Order>, o: Order)
    ensures View(orders + [o]).Cards?
    ensures View(orders + [o]).cards[|orders|] == CardOf(o)
    ensures orders != [] ==> View(orders + [o]).cards[..|orders|] == View(orders).cards
  {
    var after := View(orders + [o]);
    assert (orders + [o])[|orders|] == o;
    if orders != [] {
      forall k | 0 <= k < |orders| ensures after.cards[k] == View(orders).cards[k] {
        assert (orders + [o])[k] == orders[k];
      }
    }
  }
}
