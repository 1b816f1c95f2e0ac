/** The three service-configuration screens (Wash Laundry, Laundry and Only
    Wash) as one screen parameterised by the service's id, name, items,
    price rule and minimum: per-item counters, the expected weight of the
    weight-priced service, the pickup-slot selection and the proceed step
    that writes the cart. */
module ServiceScreen {
  import opened Common
  import opened Cart
  import Slots

  datatype Pricing = PerItem(unitPrices: seq<nat>) | PerKg(rate: nat)

  datatype ServiceConfig = ServiceConfig(
    id: string,
    name: string,
    itemNames: seq<string>,
    pricing: Pricing,
    minItems: nat)

  predicate WellFormed(cfg: ServiceConfig) {
    cfg.pricing.PerItem? ==> |cfg.pricing.unitPrices| == |cfg.itemNames|
  }

  const WashLaundry := ServiceConfig("1", "Wash Laundry", ["Shirts", "Pants", "Sarees"], PerItem([25, 25, 40]), 5)
  const Laundry := ServiceConfig("3", "Laundry", ["Shirts", "Pants", "Sarees"], PerItem([10, 10, 30]), 5)
  const OnlyWash := ServiceConfig(
    "2", "Only Wash",
    ["Shirts", "Pants", "Sarees", "Towels", "Bedsheets", "Blankets", "Pillow Covers"],
    PerKg(69), 1)

  predicate DistinctNames(names: seq<string>) {
    forall i, j :: 0 <= i < j < |names| ==> names[i] != names[j]
  }

  lemma ConfigsWellFormed()
    ensures WellFormed(WashLaundry) && WellFormed(Laundry) && WellFormed(OnlyWash)
    ensures DistinctNames(WashLaundry.itemNames) && DistinctNames(Laundry.itemNames)
    ensures DistinctNames(OnlyWash.itemNames)
  {
  }

  /** `cart.items[name] || 0`: the count stored under `name`, or 0. */
  function Lookup(items: seq<ItemCount>, name: string): (r: nat)
    ensures (forall k :: 0 <= k < |items| ==> items[k].item != name) ==> r == 0
  {
    if items == [] then 0
    else if items[0].item == name then items[0].count
    else Lookup(items[1..], name)
  }

  /** The screen's counts become the cart's `items` record. */
  function Items(names: seq<string>, counts: seq<int>): (r: seq<ItemCount>)
    requires |names| == |counts|
    requires forall k :: 0 <= k < |counts| ==> counts[k] >= 0
    ensures |r| == |names|
    ensures forall k :: 0 <= k < |r| ==> r[k].item == names[k] && r[k].count == counts[k]
  {
    seq(|names|, k requires 0 <= k < |names| => ItemCount(names[k], counts[k]))
  }

  /** The counts a screen starts with: restored from the cart when the
      cart belongs to this service, all zero otherwise. */
  function InitialCounts(cfg: ServiceConfig, cart: Option<CartItem>): (r: seq<int>)
    ensures |r| == |cfg.itemNames|
    ensures forall k :: 0 <= k < |r| ==> r[k] >= 0
    ensures (cart.None? || cart.value.serviceId != cfg.id) ==> forall k :: 0 <= k < |r| ==> r[k] == 0
    ensures cart.Some? && cart.value.serviceId == cfg.id ==>
      forall k :: 0 <= k < |r| ==> r[k] == Lookup(cart.value.items, cfg.itemNames[k])
  {
    var restore := cart.Some? && cart.value.serviceId == cfg.id;
    seq(|cfg.itemNames|, k requires 0 <= k < |cfg.itemNames| =>
      if restore then Lookup(cart.value.items, cfg.itemNames[k]) else 0)
  }

  /** `cart?.serviceId === id ? cart.expectedKgs || 1 : 1`. */
  function InitialKgs(cfg: ServiceConfig, cart: Option<CartItem>): (r: int)
    ensures r >= 1
    ensures cart.Some? && cart.value.serviceId == cfg.id && cart.value.expectedKgs > 0 ==>
      r == cart.value.expectedKgs
  {
    if cart.Some? && cart.value.serviceId == cfg.id && cart.value.expectedKgs != 0 then
      cart.value.expectedKgs
    else 1
  }

  /** Sum of count times unit price, item by item. */
  function PriceSum(counts: seq<int>, prices: seq<nat>): int
    requires |counts| == |prices|
  {
    if counts == [] then 0
    else (PriceSum(counts[..|counts| - 1], prices[..|prices| - 1])
          + counts[|counts| - 1] * prices[|prices| - 1])
  }

  /** calculateTotal: per-item services price each count, the weight
      service prices the expected kilograms only. */
  function CalculateTotal(cfg: ServiceConfig, counts: seq<int>, kgs: int): int
    requires WellFormed(cfg) && |counts| == |cfg.itemNames|
  {
    match cfg.pricing
    case PerItem(prices) => PriceSum(counts, prices)
    case PerKg(rate) => kgs * rate
  }

  datatype ProceedError = MinimumItemsNotMet | NoSlotSelected

  datatype ProceedOutcome = Rejected(error: ProceedError) | Accepted(cart: CartItem)

  /** handleProceed as a value: the minimum is checked first, then the
      slot, and only then is the cart built. */
  function Proceed(cfg: ServiceConfig, counts: seq<int>, kgs: nat, slot: Option<string>): ProceedOutcome
    requires WellFormed(cfg) && |counts| == |cfg.itemNames|
    requires forall k :: 0 <= k < |counts| ==> counts[k] >= 0
  {
    if Sum(counts) < cfg.minItems then Rejected(MinimumItemsNotMet)
    else if slot.None? then Rejected(NoSlotSelected)
    else Accepted(CartItem(
      if cfg.pricing.PerKg? then kgs else 0,
      cfg.id, cfg.name, Items(cfg.itemNames, counts),
      CalculateTotal(cfg, counts, kgs), slot.value))
  }

  lemma {:induction false} TotalCountOfItems(names: seq<string>, counts: seq<int>)
    requires |names| == |counts|
    requires forall k :: 0 <= k < |counts| ==> counts[k] >= 0
    ensures TotalCount(Items(names, counts)) == Sum(counts)
  {
    if counts != [] {
      var n := |counts| - 1;
      TotalCountOfItems(names[..n], counts[..n]);
      assert Items(names, counts)[..n] == Items(names[..n], counts[..n]);
    }
  }

  /** The proceed rule: it succeeds iff there are at least the minimum
      number of items and a slot is selected; too few items is reported
      whatever the slot; a successful cart carries this service, the
      counts, their total, the price and the slot. */
  lemma ProceedSpec(cfg: ServiceConfig, counts: seq<int>, kgs: nat, slot: Option<string>)
    requires WellFormed(cfg) && |counts| == |cfg.itemNames|
    requires forall k :: 0 <= k < |counts| ==> counts[k] >= 0
    ensures var r := Proceed(cfg, counts, kgs, slot);
      && (r.Accepted? <==> Sum(counts) >= cfg.minItems && slot.Some?)
      && (Sum(counts) < cfg.minItems ==> r == Rejected(MinimumItemsNotMet))
      && (Sum(counts) >= cfg.minItems && slot.None? ==> r == Rejected(NoSlotSelected))
      && (r.Accepted? ==>
            && r.cart.serviceId == cfg.id && r.cart.serviceName == cfg.name
            && r.cart.selectedSlot == slot.value
            && TotalCount(r.cart.items) == Sum(counts) >= cfg.minItems
            && |r.cart.items| == |counts|
            && (forall k :: 0 <= k < |counts| ==> r.cart.items[k] == ItemCount(cfg.itemNames[k], counts[k]))
            && r.cart.total == CalculateTotal(cfg, counts, kgs)
            && r.cart.expectedKgs == (if cfg.pricing.PerKg? then kgs else 0))
  {
    TotalCountOfItems(cfg.itemNames, counts);
  }

  lemma PriceSumOfThree(a: int, b: int, c: int, p: nat, q: nat, r: nat)
    ensures PriceSum([a, b, c], [p, q, r]) == a * p + b * q + c * r
  {
    assert [a][..0] == [] && [p][..0] == [];
    assert PriceSum([a], [p]) == a * p;
    assert [a, b][..1] == [a] && [p, q][..1] == [p];
    assert PriceSum([a, b], [p, q]) == a * p + b * q;
    assert [a, b, c][..2] == [a, b] && [p, q, r][..2] == [p, q];
  }

  /** Wash Laundry: 25 per shirt and per pair of pants, 40 per saree. */
  lemma WashLaundryTotal(shirts: int, pants: int, sarees: int, kgs: int)
    ensures CalculateTotal(WashLaundry, [shirts, pants, sarees], kgs) == 25 * shirts + 25 * pants + 40 * sarees
    ensures CalculateTotal(WashLaundry, [3, 2, 0], kgs) == 125
  {
    PriceSumOfThree(shirts, pants, sarees, 25, 25, 40);
    PriceSumOfThree(3, 2, 0, 25, 25, 40);
  }

  /** Laundry: 10 per shirt and per pair of pants, 30 per saree. */
  lemma LaundryTotal(shirts: int, pants: int, sarees: int, kgs: int)
    ensures CalculateTotal(Laundry, [shirts, pants, sarees], kgs) == 10 * shirts + 10 * pants + 30 * sarees
  {
    PriceSumOfThree(shirts, pants, sarees, 10, 10, 30);
  }

  /** Only Wash: 69 per expected kilogram, whatever the item counts. */
  lemma OnlyWashTotal(counts: seq<int>, other: seq<int>, kgs: int)
    requires |counts| == |other| == |OnlyWash.itemNames|
    ensures CalculateTotal(OnlyWash, counts, kgs) == 69 * kgs
    ensures CalculateTotal(OnlyWash, counts, kgs) == CalculateTotal(OnlyWash, other, kgs)
    ensures CalculateTotal(OnlyWash, counts, 3) == 207
  {
  }

  /** Coming back to a screen whose cart it wrote restores the same counts
      (and, for the weight service, the same weight). */
  lemma {:induction false} RestoreAfterProceed(cfg: ServiceConfig, counts: seq<int>, kgs: nat, slot: Option<string>)
    requires WellFormed(cfg) && |counts| == |cfg.itemNames| && DistinctNames(cfg.itemNames)
    requires forall k :: 0 <= k < |counts| ==> counts[k] >= 0
    requires Proceed(cfg, counts, kgs, slot).Accepted?
    ensures InitialCounts(cfg, Some(Proceed(cfg, counts, kgs, slot).cart)) == counts
    ensures cfg.pricing.PerKg? && kgs >= 1 ==>
      InitialKgs(cfg, Some(Proceed(cfg, counts, kgs, slot).cart)) == kgs
  {
    var items := Items(cfg.itemNames, counts);
    forall k | 0 <= k < |counts| ensures Lookup(items, cfg.itemNames[k]) == counts[k] {
      LookupDistinct(items, k);
    }
  }

  lemma {:induction false} LookupDistinct(items: seq<ItemCount>, k: nat)
    requires k < |items|
    requires forall i, j :: 0 <= i < j < |items| ==> items[i].item != items[j].item
    ensures Lookup(items, items[k].item) == items[k].count
  {
    if k > 0 {
      LookupDistinct(items[1..], k - 1);
    }
  }

  /** One service screen's state. */
  class Screen {
    const config: ServiceConfig
    var counts: seq<int>
    var expectedKgs: int
    var selectedSlot: Option<string>
    var disabledSlots: seq<string>
    var showError: bool

    ghost predicate Valid()
      reads this
    {
      && WellFormed(config)
      && |counts| == |config.itemNames|
      && (forall k :: 0 <= k < |counts| ==> counts[k] >= 0)
      && expectedKgs >= 1
    }

    /** The screen as mounted over the current cart. */
    constructor (cfg: ServiceConfig, cart: Option<CartItem>)
      requires WellFormed(cfg)
      ensures Valid() && config == cfg
      ensures counts == InitialCounts(cfg, cart) && expectedKgs == InitialKgs(cfg, cart)
      ensures selectedSlot == None && disabledSlots == [] && !showError
    {
      config := cfg;
      counts := InitialCounts(cfg, cart);
      expectedKgs := InitialKgs(cfg, cart);
      selectedSlot := None;
      disabledSlots := [];
      showError := false;
    }

    /** updateSlots at `minutes` past midnight, run on mount and every
        minute. */
    method UpdateSlots(minutes: int)
      requires Valid()
      modifies this
      ensures Valid()
      ensures disabledSlots == Slots.DisabledSlots(minutes)
      ensures selectedSlot == Slots.NextSelection(old(selectedSlot), disabledSlots)
      ensures counts == old(counts) && expectedKgs == old(expectedKgs) && showError == old(showError)
    {
      var disabled := Slots.DisabledSlots(minutes);
      disabledSlots := disabled;
      if selectedSlot.None? || selectedSlot.value in disabled {
        var first := Slots.FirstOpen(Slots.Table, disabled);
        if first.Some? {
          selectedSlot := Some(Slots.Table[first.value].caption);
        }
      }
    }

    /** Pressing slot `k`: only an enabled slot can be chosen. */
    method PressSlot(k: nat)
      requires Valid() && k < |Slots.Table|
      modifies this
      ensures Valid()
      ensures selectedSlot == if Slots.Table[k].caption in disabledSlots then old(selectedSlot)
                              else Some(Slots.Table[k].caption)
      ensures counts == old(counts) && expectedKgs == old(expectedKgs)
      ensures disabledSlots == old(disabledSlots) && showError == old(showError)
    {
      if Slots.Table[k].caption !in disabledSlots {
        selectedSlot := Some(Slots.Table[k].caption);
      }
    }

    /** increment: one more of item `k`, and the error is cleared. */
    method Increment(k: nat)
      requires Valid() && k < |counts|
      modifies this
      ensures Valid()
      ensures counts == old(counts)[k := old(counts)[k] + 1] && !showError
      ensures expectedKgs == old(expectedKgs) && selectedSlot == old(selectedSlot)
      ensures disabledSlots == old(disabledSlots)
    {
      counts := counts[k := counts[k] + 1];
      showError := false;
    }

    /** decrement: one fewer of item `k`; at zero nothing happens. */
    method Decrement(k: nat)
      requires Valid() && k < |counts|
      modifies this
      ensures Valid()
      ensures old(counts)[k] > 0 ==> counts == old(counts)[k := old(counts)[k] - 1] && !showError
      ensures old(counts)[k] == 0 ==> counts == old(counts) && showError == old(showError)
      ensures expectedKgs == old(expectedKgs) && selectedSlot == old(selectedSlot)
      ensures disabledSlots == old(disabledSlots)
    {
      if counts[k] > 0 {
        counts := counts[k := counts[k] - 1];
        showError := false;
      }
    }

    /** incrementKgs, on the weight-priced screen. */
    method IncrementKgs()
      requires Valid() && config.pricing.PerKg?
      modifies this
      ensures Valid()
      ensures expectedKgs == old(expectedKgs) + 1
      ensures counts == old(counts) && showError == old(showError)
      ensures selectedSlot == old(selectedSlot) && disabledSlots == old(disabledSlots)
    {
      expectedKgs := expectedKgs + 1;
    }

    /** decrementKgs, on the weight-priced screen: never below 1 kg. */
    method DecrementKgs()
      requires Valid() && config.pricing.PerKg?
      modifies this
      ensures Valid()
      ensures expectedKgs == if old(expectedKgs) > 1 then old(expectedKgs) - 1 else old(expectedKgs)
      ensures counts == old(counts) && showError == old(showError)
      ensures selectedSlot == old(selectedSlot) && disabledSlots == old(disabledSlots)
    {
      if expectedKgs > 1 {
        expectedKgs := expectedKgs - 1;
      }
    }

    /** getTotalItems. */
    function TotalItems(): (n: int)
      reads this
      requires Valid()
      ensures n >= 0
      ensures n == Sum(counts)
    {
      SumNonNegative(counts);
      Sum(counts)
    }

    /** handleProceed: too few items raises the error flag; a missing slot
        changes nothing; otherwise the cart becomes this service's cart. */
    method HandleProceed(store: CartStore) returns (outcome: ProceedOutcome)
      requires Valid()
      modifies this, store
      ensures Valid()
      ensures outcome == Proceed(config, counts, expectedKgs, selectedSlot)
      ensures outcome == Rejected(MinimumItemsNotMet) ==> showError
      ensures outcome != Rejected(MinimumItemsNotMet) ==> showError == old(showError)
      ensures outcome.Rejected? ==> store.cart == old(store.cart)
      ensures outcome.Accepted? ==> store.cart == Some(outcome.cart)
      ensures store.orders == old(store.orders)
      ensures counts == old(counts) && expectedKgs == old(expectedKgs)
      ensures selectedSlot == old(selectedSlot) && disabledSlots == old(disabledSlots)
    {
      outcome := Proceed(config, counts, expectedKgs, selectedSlot);
      if outcome == Rejected(MinimumItemsNotMet) {
        showError := true;
      } else if outcome.Accepted? {
        store.SetCart(Some(outcome.cart));
      }
    }
  }
}
