/** The service list: which screen a service card opens, the prompt that
    guards a cart of another service, and the cart footer's item count. */
module ServiceSelection {
  import opened Common
  import opened Cart

  datatype Service = Service(id: string, title: string)

  /** The five service cards, in display order. */
  const Services: seq<Service> := [
    Service("1", "Wash Laundry"),
    Service("2", "Only Wash"),
    Service("3", "Laundry"),
    Service("4", "Dry Clean"),
    Service("5", "Steam Iron")
  ]

  /** The screen names the navigator registers. */
  const Routes: seq<string> := [
    "LoginPage", "ServiceSelection", "WashLaundry", "OnlyWash", "Laundry", "Checkout",
    "DryClean", "SteamIron", "YourOrders", "Addresses", "LocationPicker", "LocationSearch",
    "ConfirmLocation", "Profile"
  ]

  /** `title.replace(/\s+/g, '')`: every run of white space removed. */
  function RouteName(title: string): (r: string)
    ensures NoSpace(r)
    ensures |r| <= |title|
  {
    if title == [] then []
    else
      var rest := RouteName(title[1..]);
      if IsSpace(title[0]) then rest else [title[0]] + rest
  }

  /** Removing white space keeps every other character, in order: it
      distributes over concatenation and leaves a space-free title alone. */
  lemma {:induction false} RouteNameConcat(a: string, b: string)
    ensures RouteName(a + b) == RouteName(a) + RouteName(b)
  {
    if a != [] {
      assert (a + b)[1..] == a[1..] + b;
      RouteNameConcat(a[1..], b);
    } else {
      assert a + b == b;
    }
  }

  lemma {:induction false} RouteNameKeepsPlain(s: string)
    ensures RouteName(s) == s <==> NoSpace(s)
  {
    if s != [] {
      RouteNameKeepsPlain(s[1..]);
      if IsSpace(s[0]) {
        assert |RouteName(s)| < |s| by { assert |RouteName(s[1..])| <= |s[1..]|; }
      } else {
        assert NoSpace(s) <==> NoSpace(s[1..]) by {
          if NoSpace(s[1..]) {
            forall i | 1 <= i < |s| ensures !IsSpace(s[i]) { assert s[i] == s[1..][i - 1]; }
          }
        }
      }
    }
  }

  /** Applying it twice is the same as once. */
  lemma RouteNameIdempotent(s: string)
    ensures RouteName(RouteName(s)) == RouteName(s)
  {
    RouteNameKeepsPlain(RouteName(s));
  }

  /** A two-word title loses its one space. */
  lemma TwoWords(title: string, first: string, second: string, route: string)
    requires NoSpace(first) && NoSpace(second)
    requires title == first + " " + second && route == first + second
    ensures RouteName(title) == route
  {
    RouteNameConcat(first, " " + second);
    RouteNameConcat(" ", second);
    assert first + " " + second == first + (" " + second);
    RouteNameKeepsPlain(first);
    RouteNameKeepsPlain(second);
  }

  lemma WashLaundryRoute() ensures RouteName("Wash Laundry") == "WashLaundry" {
    TwoWords("Wash Laundry", "Wash", "Laundry", "WashLaundry");
  }

  lemma OnlyWashRoute() ensures RouteName("Only Wash") == "OnlyWash" {
    TwoWords("Only Wash", "Only", "Wash", "OnlyWash");
  }

  lemma LaundryRoute() ensures RouteName("Laundry") == "Laundry" {
    assert NoSpace("Laundry");
    RouteNameKeepsPlain("Laundry");
  }

  lemma DryCleanRoute() ensures RouteName("Dry Clean") == "DryClean" {
    TwoWords("Dry Clean", "Dry", "Clean", "DryClean");
  }

  lemma SteamIronRoute() ensures RouteName("Steam Iron") == "SteamIron" {
    TwoWords("Steam Iron", "Steam", "Iron", "SteamIron");
  }

  /** The title of card `k` and the screen it opens. */
  lemma ServiceTitles()
    ensures Services[0].title == "Wash Laundry" && Routes[2] == "WashLaundry"
    ensures Services[1].title == "Only Wash" && Routes[3] == "OnlyWash"
    ensures Services[2].title == "Laundry" && Routes[4] == "Laundry"
    ensures Services[3].title == "Dry Clean" && Routes[6] == "DryClean"
    ensures Services[4].title == "Steam Iron" && Routes[7] == "SteamIron"
  {
  }

  /** Every card opens a registered screen, named by its title without
      the space. */
  lemma ServiceRoute(k: nat)
    requires k < |Services|
    ensures RouteName(Services[k].title) in Routes
  {
    ServiceTitles();
    var t := Services[k].title;
    if k == 0 {
      WashLaundryRoute();
      assert RouteName(t) == Routes[2];
    } else if k == 1 {
      OnlyWashRoute();
      assert RouteName(t) == Routes[3];
    } else if k == 2 {
      LaundryRoute();
      assert RouteName(t) == Routes[4];
    } else if k == 3 {
      DryCleanRoute();
      assert RouteName(t) == Routes[6];
    } else {
      SteamIronRoute();
      assert RouteName(t) == Routes[7];
    }
  }

  /** `cart?.serviceId && cart.serviceId !== service.id`: a prompt is shown
      only for a cart of another service (an empty id counts as none). */
  predicate NeedsConfirm(cart: Option<CartItem>, service: Service) {
    cart.Some? && cart.value.serviceId != "" && cart.value.serviceId != service.id
  }

  /** The button the user presses on the 'Change Service?' alert. */
  datatype Reply = Replace | Cancel

  /** The cart afterwards and the screen opened, if any. */
  datatype Navigation = Navigation(cart: Option<CartItem>, route: Option<string>)

  function Navigate(cart: Option<CartItem>, service: Service, reply: Reply): (r: Navigation)
    ensures r.route.Some? ==> r.route.value == RouteName(service.title)
    ensures r.route.None? <==> NeedsConfirm(cart, service) && reply.Cancel?
    ensures r.cart != cart ==> NeedsConfirm(cart, service) && reply.Replace? && r.cart == None
    ensures r.route.Some? ==> r.cart.None? || r.cart.value.serviceId in {"", service.id}
  {
    if NeedsConfirm(cart, service) then
      if reply.Replace? then Navigation(None, Some(RouteName(service.title)))
      else Navigation(cart, None)
    else Navigation(cart, Some(RouteName(service.title)))
  }

  /** navigateToService, with the alert's answer passed in. */
  method NavigateToService(store: CartStore, service: Service, reply: Reply) returns (route: Option<string>)
    modifies store
    ensures Navigation(store.cart, route) == Navigate(old(store.cart), service, reply)
    ensures store.orders == old(store.orders)
  {
    if NeedsConfirm(store.cart, service) {
      if reply.Replace? {
        store.ResetCart();
        route := Some(RouteName(service.title));
      } else {
        route := None;
      }
    } else {
      route := Some(RouteName(service.title));
    }
  }

  /** The footer's "Items Total": 0 without a cart; with one, the sum of
      its counts, which is at least each count and is 0 only when every
      count is. */
  function FooterItems(cart: Option<CartItem>): (n: nat)
    ensures cart.None? ==> n == 0
    ensures cart.Some? ==> n == TotalCount(cart.value.items)
    ensures cart.Some? ==> forall k :: 0 <= k < |cart.value.items| ==> cart.value.items[k].count <= n
    ensures cart.Some? ==> (n == 0 <==> forall k :: 0 <= k < |cart.value.items| ==> cart.value.items[k].count == 0)
  {
    if cart.None? then 0
    else
      TotalCountBounds(cart.value.items);
      TotalCount(cart.value.items)
  }

  /** The footer's delete button: the cart is dropped, so the footer
      disappears and the count reads 0; placed orders stay. */
  method DeleteCart(store: CartStore)
    modifies store
    ensures store.cart == None && store.orders == old(store.orders)
    ensures FooterItems(store.cart) == 0
  {
    store.ResetCart();
  }
}
