/** The checkout screen: the priced summary of the cart, the confirm
    button's gating on a current address, and confirmation, which turns
    the cart into an order and empties the cart. */
module Checkout {
  import opened Common
  import opened Cart
  import opened ServiceScreen
  import AddressBook

  /** The unit price getItemPrice uses: Laundry ('3') charges 30 a saree
      and 10 for anything else; every other service 40 a saree and 25 for
      anything else. */
  function UnitPrice(item: string, serviceId: string): (r: nat)
    ensures r >= 10
    ensures item == "Sarees" <==> r == 30 || r == 40
  {
    if serviceId == "3" then (if item == "Sarees" then 30 else 10)
    else (if item == "Sarees" then 40 else 25)
  }

  /** getItemPrice. */
  function ItemPrice(item: string, count: int, serviceId: string): (r: int)
    ensures r == 0 <==> count == 0
    ensures count >= 0 ==> r >= count
  {
    count * UnitPrice(item, serviceId)
  }

  /** One priced line of the summary card. */
  datatype Line = Line(item: string, count: nat, price: int)

  /** The summary card shows the expected weight for Only Wash ('2') and
      one priced line per item with a positive count otherwise. */
  datatype Summary = WeightNote(kgs: nat) | PricedLines(lines: seq<Line>)

  /** `Object.entries(items).filter(([_, n]) => n > 0)` with prices. */
  function ListedLines(items: seq<ItemCount>, serviceId: string): (r: seq<Line>)
    ensures |r| <= |items|
    ensures forall k :: 0 <= k < |r| ==> r[k].count > 0
    ensures forall k :: 0 <= k < |r| ==> r[k].price == ItemPrice(r[k].item, r[k].count, serviceId)
  {
    if items == [] then []
    else
      var rest := ListedLines(items[..|items| - 1], serviceId);
      var last := items[|items| - 1];
      if last.count > 0 then rest + [Line(last.item, last.count, ItemPrice(last.item, last.count, serviceId))]
      else rest
  }

  /** The positions of the entries with a positive count, in order. */
  function PositiveIndices(items: seq<ItemCount>): (idx: seq<nat>)
    ensures forall k :: 0 <= k < |idx| ==> idx[k] < |items| && items[idx[k]].count > 0
    ensures forall k, k' :: 0 <= k < k' < |idx| ==> idx[k] < idx[k']
    ensures forall j :: 0 <= j < |items| && items[j].count > 0 ==> j in idx
  {
    if items == [] then []
    else
      var n := |items| - 1;
      var rest := PositiveIndices(items[..n]);
      assert forall j :: 0 <= j < n ==> items[..n][j] == items[j];
      if items[n].count > 0 then rest + [n] else rest
  }

  /** The card lists exactly the entries with a positive count, in the
      cart's order, each with its own name, count and getItemPrice: line k
      is the entry at the k-th positive position. */
  lemma {:induction false} ListedLinesAreEntries(items: seq<ItemCount>, serviceId: string)
    ensures var r := ListedLines(items, serviceId);
      var idx := PositiveIndices(items);
      && |r| == |idx|
      && forall k :: 0 <= k < |r| ==>
           r[k] == Line(items[idx[k]].item, items[idx[k]].count, ItemPrice(items[idx[k]].item, items[idx[k]].count, serviceId))
  {
    if items != [] {
      var n := |items| - 1;
      ListedLinesAreEntries(items[..n], serviceId);
      var pre := items[..n];
      var rest := ListedLines(pre, serviceId);
      var restIdx := PositiveIndices(pre);
      var r := ListedLines(items, serviceId);
      var idx := PositiveIndices(items);
      var last := items[n];
      assert r == if last.count > 0 then rest + [Line(last.item, last.count, ItemPrice(last.item, last.count, serviceId))] else rest;
      assert idx == if last.count > 0 then restIdx + [n] else restIdx;
      forall k | 0 <= k < |rest|
        ensures r[k] == Line(items[idx[k]].item, items[idx[k]].count, ItemPrice(items[idx[k]].item, items[idx[k]].count, serviceId))
      {
        assert r[k] == rest[k] && idx[k] == restIdx[k];
        assert pre[restIdx[k]] == items[restIdx[k]];
      }
    }
  }

  function LineCounts(lines: seq<Line>): nat {
    if lines == [] then 0 else LineCounts(lines[..|lines| - 1]) + lines[|lines| - 1].count
  }

  /** The lines carry every positive count: their counts add up to the
      "Items Total" shown above them, and there are none exactly when
      every count is zero. */
  lemma {:induction false} ListedLinesCounts(items: seq<ItemCount>, serviceId: string)
    ensures LineCounts(ListedLines(items, serviceId)) == TotalCount(items)
    ensures ListedLines(items, serviceId) == [] <==> TotalCount(items) == 0
  {
    if items != [] {
      var n := |items| - 1;
      var rest := ListedLines(items[..n], serviceId);
      ListedLinesCounts(items[..n], serviceId);
      if items[n].count > 0 {
        var l := Line(items[n].item, items[n].count, ItemPrice(items[n].item, items[n].count, serviceId));
        assert (rest + [l])[..|rest|] == rest;
      }
    }
  }

  /** The summary card of a cart. */
  function Summarize(c: CartItem): (r: Summary)
    ensures r.WeightNote? <==> c.serviceId == "2"
    ensures r.WeightNote? ==> r.kgs == c.expectedKgs
    ensures r.PricedLines? ==> r.lines == ListedLines(c.items, c.serviceId)
    ensures r.PricedLines? ==> LineCounts(r.lines) == TotalCount(c.items)
  {
    ListedLinesCounts(c.items, c.serviceId);
    if c.serviceId == "2" then WeightNote(c.expectedKgs)
    else PricedLines(ListedLines(c.items, c.serviceId))
  }

  function LinesTotal(lines: seq<Line>): int {
    if lines == [] then 0 else LinesTotal(lines[..|lines| - 1]) + lines[|lines| - 1].price
  }

  lemma {:induction false} LinesTotalAppend(lines: seq<Line>, l: Line)
    ensures LinesTotal(lines + [l]) == LinesTotal(lines) + l.price
  {
    assert (lines + [l])[..|lines|] == lines;
  }

  /** The last step of ListedLines: the last item adds a line only when
      its count is positive. */
  lemma ListedLinesSnoc(items: seq<ItemCount>, serviceId: string)
    requires items != []
    ensures var n := |items| - 1;
      LinesTotal(ListedLines(items, serviceId))
        == LinesTotal(ListedLines(items[..n], serviceId)) + ItemPrice(items[n].item, items[n].count, serviceId)
  {
    var n := |items| - 1;
    var last := items[n];
    if last.count > 0 {
      LinesTotalAppend(ListedLines(items[..n], serviceId),
        Line(last.item, last.count, ItemPrice(last.item, last.count, serviceId)));
    }
  }

  /** Leaving out zero counts does not change the sum of the prices. */
  lemma {:induction false} ListedLinesTotal(names: seq<string>, counts: seq<int>, prices: seq<nat>, serviceId: string)
    requires |names| == |counts| == |prices|
    requires forall k :: 0 <= k < |counts| ==> counts[k] >= 0
    requires forall k :: 0 <= k < |prices| ==> prices[k] == UnitPrice(names[k], serviceId)
    ensures LinesTotal(ListedLines(Items(names, counts), serviceId)) == PriceSum(counts, prices)
  {
    if counts != [] {
      var n := |counts| - 1;
      var items := Items(names, counts);
      assert items[..n] == Items(names[..n], counts[..n]);
      ListedLinesTotal(names[..n], counts[..n], prices[..n], serviceId);
      ListedLinesSnoc(items, serviceId);
      assert ItemPrice(items[n].item, items[n].count, serviceId) == counts[n] * prices[n];
    }
  }

  /** The line prices on the checkout card of a Wash Laundry or Laundry
      cart add up to the total the service screen computed. */
  lemma LinesMatchScreenTotal(cfg: ServiceConfig, counts: seq<int>, kgs: nat, slot: Option<string>)
    requires cfg == WashLaundry || cfg == Laundry
    requires |counts| == |cfg.itemNames|
    requires forall k :: 0 <= k < |counts| ==> counts[k] >= 0
    requires Proceed(cfg, counts, kgs, slot).Accepted?
    ensures var c := Proceed(cfg, counts, kgs, slot).cart;
      Summarize(c).PricedLines? && LinesTotal(Summarize(c).lines) == c.total
  {
    ListedLinesTotal(cfg.itemNames, counts, cfg.pricing.unitPrices, cfg.id);
  }

  /** The order that handleConfirm builds from a cart; it has no status. */
  function BuildOrder(c: CartItem, id: string, placedAt: string): (o: Order)
    ensures o.id == id && o.placedAt == placedAt && o.status == None
    ensures o.serviceName == c.serviceName && o.selectedSlot == c.selectedSlot
    ensures o.totalItems == TotalCount(c.items) && o.totalPrice == c.total
  {
    Order(id, c.serviceName, TotalCount(c.items), c.total, placedAt, c.selectedSlot, None)
  }

  /** An order placed from a screen's cart reports the screen's item
      count and price. */
  lemma OrderFromScreen(cfg: ServiceConfig, counts: seq<int>, kgs: nat, slot: Option<string>, id: string, placedAt: string)
    requires WellFormed(cfg) && |counts| == |cfg.itemNames|
    requires forall k :: 0 <= k < |counts| ==> counts[k] >= 0
    requires Proceed(cfg, counts, kgs, slot).Accepted?
    ensures var o := BuildOrder(Proceed(cfg, counts, kgs, slot).cart, id, placedAt);
      && o.totalItems == Sum(counts) && o.totalItems >= cfg.minItems
      && o.totalPrice == CalculateTotal(cfg, counts, kgs)
      && o.serviceName == cfg.name && o.selectedSlot == slot.value
  {
    ProceedSpec(cfg, counts, kgs, slot);
  }

  /** The confirm button is enabled only with a current address. */
  function ConfirmButton(current: Option<AddressBook.Address>): (b: (bool, string))
    ensures b.0 <==> current.Some?
    ensures b.1 == if b.0 then "Confirm Order" else "Add address to continue"
  {
    if current.Some? then (true, "Confirm Order") else (false, "Add address to continue")
  }

  /** handleConfirm, with its delayed reset folded in: with a cart, exactly
      one order is appended; with none, no order is; the cart ends empty. */
  method HandleConfirm(store: CartStore, id: string, placedAt: string) returns (placed: Option<Order>)
    modifies store
    ensures placed == if old(store.cart).Some? then Some(BuildOrder(old(store.cart).value, id, placedAt)) else None
    ensures store.orders == old(store.orders) + (if placed.Some? then [placed.value] else [])
    ensures store.cart == None
  {
    placed := None;
    if store.cart.Some? {
      var order := BuildOrder(store.cart.value, id, placedAt);
      store.AddOrder(order);
      placed := Some(order);
    }
    store.ResetCart();
  }
}
