# Laundry ordering app: the decision layer, modelled and proved in Dafny

The app is a React Native client for ordering laundry pickups. A user logs
in with a mobile number and a one-time code. They pick a service, set item
counts (or an expected weight) and a pickup slot, and confirm the order
against a saved delivery address. They can later see their orders with a
status badge. Underneath the screens sits a small, sequential,
integer-priced decision layer, and this project models it:

- `Slots` (`slots.dfy`): the six pickup windows, which are closed at a given
  minute of the day, and how a screen's selection falls back when its slot
  closes.
- `ServiceScreen` (`service_screen.dfy`): the Wash Laundry, Laundry and Only
  Wash screens as one class (`Screen`). Each screen is an instance of a
  `ServiceConfig` holding the service's id, name, items, price rule
  (per item, or per kilogram) and minimum item count. The class covers the
  counters, the weight, the slot selection and the proceed step that writes
  the cart.
- `Cart` (`cart.dfy`): the cart context. It holds at most one cart and an
  append-only list of placed orders.
- `Checkout` (`checkout.dfy`): the priced summary of the cart, the gating of
  the confirm button on a current address, and confirmation, which turns
  the cart into an order and empties the cart.
- `ServiceSelection` (`service_selection.dfy`): which screen a service card
  opens (its title without white space), the "Change Service?" rule, and the
  cart footer.
- `AddressBook` (`address_book.dfy`): the address context. It keeps a list of
  addresses and the id of the current one.
- `AddressList` (`address_list.dfy`): the address cards, their one-line
  summary and the radio button of the current address.
- `ConfirmLocation` (`confirm_location.dfy`): the two forms that save a picked
  place as an address. The newer one has a label menu and a required
  building name. The older one saves whatever label it has.
- `LocationSearch` (`location_search.dfy`): the recent-places list (most
  recent first, no repeated place id, at most five) and the map region
  handed on at confirmation.
- `YourOrders` (`your_orders.dfy`): the order history cards and their status
  badges.
- `Login` (`login.dfy`): the mobile-number and e-mail rules, the `m:ss`
  countdown text, and the screen's state machine. The machine runs from
  number entry, through code entry, to the new-user profile form.
- `Common` (`common.dfy`): an `Option` type, ECMAScript white space (for
  `trim()`, `\s` and `\S`), `Array.prototype.join` and sums.

State that the components change in place is a Dafny `class` whose methods
carry `modifies` clauses and state the whole new state. Those classes are
`Cart.CartStore`, `AddressBook.Book`, `ServiceScreen.Screen`,
`ConfirmLocation.LabelForm`, `ConfirmLocation.LegacyForm`,
`LocationSearch.SearchScreen` and `Login.LoginScreen`. Pure computations
are functions, with lemmas relating them to each other.

Several inputs become parameters:

- the clock: the minutes since midnight, the `Date.now()` id and the ISO
  time of an order;
- the answer to an alert;
- the result of a place lookup;
- what storage returned.

Timer callbacks become single steps. A delayed effect (the mock network
delays on the login screen, the two-second confirmation on checkout)
happens in the same step as its trigger.

A record's `label` field is called `tag` in the model, and a slot's `label`
is called `caption`, because `label` is a Dafny keyword.

## Model

| member | source | states |
|---|---|---|
| Common.Trim | android/app/src/MenuItems/address/ConfirmLocation.tsx:44 | `trim()` gives "" exactly when every character is ECMAScript white space, and otherwise starts and ends with a non-space character |
| Common.JoinEmptyIffNoParts | android/app/src/MenuItems/address/Addresses.tsx:45 | joining non-empty parts with a separator gives "" only when there are no parts |
| Slots.MinutesOfDay | android/app/src/screens/WashLaundry.tsx:60 | `hours*60 + minutes` is below 1440 and gives back the hour and the minute by division and remainder |
| Slots.ClosedLabelsArePrefix | android/app/src/screens/OnlyWash.tsx:71-74 | in a list ordered by end hour, the slots the filter keeps are exactly a prefix, and slot k is kept iff it is closed |
| Slots.DisabledSlots | android/app/src/screens/OnlyWash.tsx:68-74 | getDisabledSlots over the six windows; Slots.DisabledSlotsSpec states which labels it lists and in what order |
| Slots.TableShape | android/app/src/screens/OnlyWash.tsx:18-25 | the six windows are ordered by end hour and have distinct labels |
| Slots.DisabledSlotsSpec | android/app/src/screens/OnlyWash.tsx:68-74 | a slot is listed as disabled iff minutes >= endHour*60 - 30; the list is the labels of the first ClosedCount slots, in table order |
| Slots.DisabledSlotsGrow | android/app/src/screens/OnlyWash.tsx:68-74 | as time increases the disabled list only grows, and the earlier list is a prefix of the later one |
| Slots.FirstOpen | android/app/src/screens/OnlyWash.tsx:82 | `find` returns the first slot whose label is not disabled, or nothing when every label is disabled |
| Slots.FirstOpenAfterPrefix | android/app/src/screens/OnlyWash.tsx:82 | when exactly the first n labels are disabled, the first open slot is slot n, if it exists |
| Slots.NextSelection | android/app/src/screens/OnlyWash.tsx:81-84 | an open selection is kept; a changed selection is an open label; the result is empty only when the selection was; Slots.NextSelectionSpec gives the exact slot chosen |
| Slots.NextSelectionSpec | android/app/src/screens/OnlyWash.tsx:81-84 | an open selection is kept; a missing or closed one moves to the slot just after the closed prefix; with every slot closed the selection is left unchanged; a changed selection is always an open table label |
| Cart.TotalCountBounds | android/app/src/screens/Checkout.tsx:42 | the summed item counts are at least each count, and are 0 exactly when every count is 0 |
| Cart.TotalCount | android/app/src/screens/Checkout.tsx:86-88 | getTotalItems, the reduce-sum of the counts; Cart.TotalCountBounds bounds it by each count and makes it 0 iff every count is |
| Cart.OrdersAppendOnly | android/app/src/context/cartContext.tsx:25-31 | no sequence of setCart, resetCart and addOrder removes or alters an order: the orders afterwards are the earlier orders followed by the added ones, in order |
| Cart.CartStore.constructor | android/app/src/context/cartContext.tsx:44-45 | the provider starts with no cart and no orders |
| Cart.CartStore.SetCart | android/app/src/context/cartContext.tsx:27 | the cart becomes the given value, with no merging, and the orders are unchanged |
| Cart.CartStore.ResetCart | android/app/src/context/cartContext.tsx:48-50 | the cart becomes null and the orders are unchanged |
| Cart.CartStore.AddOrder | android/app/src/context/cartContext.tsx:53-55 | the order is appended at the end, earlier orders keep their values and positions, and the cart is unchanged |
| ServiceScreen.ConfigsWellFormed | android/app/src/screens/WashLaundry.tsx:11 | each of the three services has a price for every item, and the item names of each are distinct |
| ServiceScreen.Items | android/app/src/screens/WashLaundry.tsx:124 | the cart's `items` record lists every item of the screen with its count, in the screen's order |
| ServiceScreen.InitialCounts | android/app/src/screens/WashLaundry.tsx:47-51 | counts are restored from the cart only when the cart's service id is the screen's own, and are all zero otherwise; they are never negative |
| ServiceScreen.InitialKgs | android/app/src/screens/OnlyWash.tsx:62 | `cart.expectedKgs \|\| 1` for this service's cart, and 1 otherwise, so the weight starts at 1 or more |
| ServiceScreen.Lookup | android/app/src/screens/WashLaundry.tsx:48 | `cart.items[name] \|\| 0`: a name the cart does not list reads as 0, and Lookup gives back the stored count when names are distinct (ServiceScreen.LookupDistinct) |
| ServiceScreen.TotalCountOfItems | android/app/src/screens/OnlyWash.tsx:114-116 | the item total of the cart written by proceed is the sum of the screen's counts |
| ServiceScreen.ProceedSpec | android/app/src/screens/OnlyWash.tsx:122-144 | proceed succeeds iff the item total reaches the minimum and a slot is selected; too few items is reported before the missing slot; a successful cart carries the service's id and name, the counts, the price, the slot, and the weight for the weight-priced service (0 otherwise) |
| ServiceScreen.Proceed | android/app/src/screens/OnlyWash.tsx:122-144 | handleProceed's decision and the cart it writes; ServiceScreen.ProceedSpec states its outcomes and ServiceScreen.RestoreAfterProceed its round trip |
| ServiceScreen.CalculateTotal | android/app/src/screens/WashLaundry.tsx:103-105 | calculateTotal: the per-item price sum, or the weight times the rate; ServiceScreen.WashLaundryTotal, LaundryTotal and OnlyWashTotal state it per service, and Checkout.LinesMatchScreenTotal ties it to the checkout lines |
| ServiceScreen.PriceSumOfThree | android/app/src/screens/WashLaundry.tsx:103-105 | the per-item price sum over three items is count times unit price, summed |
| ServiceScreen.WashLaundryTotal | android/app/src/screens/WashLaundry.tsx:103-105 | Wash Laundry costs 25 per shirt, 25 per pant and 40 per saree, so {3, 2, 0} costs 125 |
| ServiceScreen.LaundryTotal | android/app/src/screens/Laundry.tsx:107-113 | Laundry costs 10 per shirt, 10 per pant and 30 per saree |
| ServiceScreen.OnlyWashTotal | android/app/src/screens/OnlyWash.tsx:118-120 | Only Wash costs 69 per expected kilogram, whatever the item counts |
| ServiceScreen.RestoreAfterProceed | android/app/src/screens/OnlyWash.tsx:52-62 | coming back to a screen whose cart it wrote restores the same counts, and the same weight for the weight service |
| ServiceScreen.LookupDistinct | android/app/src/screens/WashLaundry.tsx:48 | with distinct item names, `items[name]` reads back the count stored under that name |
| ServiceScreen.Screen.constructor | android/app/src/screens/OnlyWash.tsx:52-66 | a mounted screen starts with the restored counts and weight, no selected or disabled slot, and no error |
| ServiceScreen.Screen.UpdateSlots | android/app/src/screens/OnlyWash.tsx:77-86 | the disabled list is recomputed for the given minute and the selection follows the fallback rule; counts stay non-negative and the weight stays at least 1 |
| ServiceScreen.Screen.PressSlot | android/app/src/screens/WashLaundry.tsx:171 | pressing a slot selects it only when it is not disabled; nothing else changes |
| ServiceScreen.Screen.Increment | android/app/src/screens/OnlyWash.tsx:92-95 | only the named item's count goes up by one, and the error is cleared |
| ServiceScreen.Screen.Decrement | android/app/src/screens/OnlyWash.tsx:97-102 | at a positive count only the named item goes down by one and the error is cleared; at zero nothing changes, so counts stay non-negative |
| ServiceScreen.Screen.IncrementKgs | android/app/src/screens/OnlyWash.tsx:104-106 | the weight goes up by one and nothing else changes |
| ServiceScreen.Screen.DecrementKgs | android/app/src/screens/OnlyWash.tsx:108-112 | the weight goes down by one only when it is above 1, so it stays at least 1 |
| ServiceScreen.Screen.TotalItems | android/app/src/screens/OnlyWash.tsx:114-116 | the total item count is the sum of the counts and is never negative |
| ServiceScreen.Screen.HandleProceed | android/app/src/screens/OnlyWash.tsx:122-144 | too few items sets the error and leaves the cart; a missing slot changes nothing; otherwise the cart becomes the accepted cart; the orders and the screen's own values are unchanged |
| Checkout.UnitPrice | android/app/src/screens/Checkout.tsx:90-96 | every unit price is at least 10, and it is 30 or 40 exactly for sarees |
| Checkout.ItemPrice | android/app/src/screens/Checkout.tsx:90-96 | getItemPrice is 0 exactly when the count is 0, and at least the count otherwise |
| Checkout.ListedLines | android/app/src/screens/Checkout.tsx:149-157 | every listed line has a positive count and is priced by getItemPrice; Checkout.ListedLinesAreEntries states that the lines are the cart's positive entries in order |
| Checkout.PositiveIndices | android/app/src/screens/Checkout.tsx:150 | the positions of the entries with a positive count: increasing, each in range with a positive count, and every positive entry among them |
| Checkout.ListedLinesAreEntries | android/app/src/screens/Checkout.tsx:149-157 | the card lists exactly the positive entries of the cart, in the cart's order, line k being the entry at the k-th positive position with its name, count and getItemPrice |
| Checkout.ListedLinesCounts | android/app/src/screens/Checkout.tsx:140-151 | the listed counts add up to the "Items Total" shown above them, and nothing is listed exactly when every count is 0 |
| Checkout.Summarize | android/app/src/screens/Checkout.tsx:141-161 | service '2' shows the expected weight instead of priced lines; every other service shows exactly the listed lines of the cart, whose counts add up to the item total |
| Checkout.LinesTotalAppend | android/app/src/screens/Checkout.tsx:149-157 | adding a line adds its price to the sum of the line prices |
| Checkout.ListedLinesSnoc | android/app/src/screens/Checkout.tsx:149-157 | the last entry adds its getItemPrice to the sum of the prices; a zero count adds 0 |
| Checkout.ListedLinesTotal | android/app/src/screens/Checkout.tsx:90-97 | leaving out zero counts does not change the sum of getItemPrice over a cart's items, which equals the per-item price sum |
| Checkout.LinesMatchScreenTotal | android/app/src/screens/Checkout.tsx:90-97 | for a Wash Laundry or Laundry cart, the line prices on the checkout card add up to the total its screen computed |
| Checkout.BuildOrder | android/app/src/screens/Checkout.tsx:42-51 | the order has the given id and time, the cart's service name and slot, the sum of its counts, its total, and no status |
| Checkout.OrderFromScreen | android/app/src/screens/Checkout.tsx:42-51 | an order placed from a screen's cart reports the screen's item sum (at least its minimum), its price, its name and its slot |
| Checkout.ConfirmButton | android/app/src/screens/Checkout.tsx:171-179 | the button is enabled iff there is a current address, and reads "Confirm Order" or "Add address to continue" accordingly |
| Checkout.HandleConfirm | android/app/src/screens/Checkout.tsx:39-62 | with a cart, exactly one order (built from it) is appended; with none, no order is; the cart ends null |
| ServiceSelection.RouteName | android/app/src/screens/ServiceSelection.tsx:82 | `replace(/\s+/g, '')` leaves no white space and never lengthens the title |
| ServiceSelection.RouteNameConcat | android/app/src/screens/ServiceSelection.tsx:82 | removing white space distributes over concatenation |
| ServiceSelection.RouteNameKeepsPlain | android/app/src/screens/ServiceSelection.tsx:82 | a title is left unchanged iff it has no white space |
| ServiceSelection.RouteNameIdempotent | android/app/src/screens/ServiceSelection.tsx:82 | removing white space twice is the same as once |
| ServiceSelection.TwoWords | android/app/src/screens/ServiceSelection.tsx:82 | a title of two space-free words joined by one space becomes the two words run together |
| ServiceSelection.WashLaundryRoute | android/app/src/screens/ServiceSelection.tsx:31 | 'Wash Laundry' becomes 'WashLaundry' |
| ServiceSelection.OnlyWashRoute | android/app/src/screens/ServiceSelection.tsx:32 | 'Only Wash' becomes 'OnlyWash' |
| ServiceSelection.LaundryRoute | android/app/src/screens/ServiceSelection.tsx:33 | 'Laundry' stays 'Laundry' |
| ServiceSelection.DryCleanRoute | android/app/src/screens/ServiceSelection.tsx:34 | 'Dry Clean' becomes 'DryClean' |
| ServiceSelection.SteamIronRoute | android/app/src/screens/ServiceSelection.tsx:35 | 'Steam Iron' becomes 'SteamIron' |
| ServiceSelection.ServiceTitles | android/app/src/screens/ServiceSelection.tsx:30-36 | the five card titles, and the registered screen names they are meant to reach |
| ServiceSelection.ServiceRoute | android/app/src/navigation/AppNavigator.tsx:31-44 | every service card opens a screen the navigator registers |
| ServiceSelection.Navigate | android/app/src/screens/ServiceSelection.tsx:71-90 | the route is withheld iff a cart of another service exists and the user cancels; the cart changes only when such a cart is replaced, and then becomes null; whenever a screen opens, the cart is empty or belongs to that service |
| ServiceSelection.NeedsConfirm | android/app/src/screens/ServiceSelection.tsx:72 | the "Change Service?" test: a cart with a service id other than the card's; ServiceSelection.Navigate states what follows from it |
| ServiceSelection.NavigateToService | android/app/src/screens/ServiceSelection.tsx:71-90 | the shared cart and the route taken are those of Navigate, and the orders are unchanged |
| ServiceSelection.FooterItems | android/app/src/screens/ServiceSelection.tsx:92-95 | 0 without a cart; otherwise the sum of the counts, which is at least each count and is 0 only when every count is |
| ServiceSelection.DeleteCart | android/app/src/screens/ServiceSelection.tsx:151 | the delete button empties the cart, so the footer count is 0, and the orders are kept |
| AddressBook.IndexOf | android/app/src/context/addressContext.tsx:42 | the position of the first address with the id, or none iff no address has it |
| AddressBook.Find | android/app/src/context/addressContext.tsx:42 | `find` gives an address of the list with the current id, and nothing iff the id is unset or absent |
| AddressBook.FindIsFirst | android/app/src/context/addressContext.tsx:42 | the address found is the first one with that id |
| AddressBook.ReplaceById | android/app/src/context/addressContext.tsx:35 | every entry with the record's id is replaced by it, and every other entry is kept in place |
| AddressBook.ReplaceByIdSpec | android/app/src/context/addressContext.tsx:34-36 | updating an absent id is a no-op; otherwise a lookup by the id finds the new record; ids and order are kept, and unique ids stay unique |
| AddressBook.FindAfterAppend | android/app/src/context/addressContext.tsx:29-32 | after appending an address with a new id, looking that id up finds it |
| AddressBook.Book.constructor | android/app/src/context/addressContext.tsx:26-27 | no addresses, no current id and so no current address at first |
| AddressBook.Book.CurrentAddress | android/app/src/context/addressContext.tsx:42 | the current address has the current id and is one of the addresses; there is none iff the id is unset or no address has it |
| AddressBook.Book.AddAddress | android/app/src/context/addressContext.tsx:29-32 | the address is appended and its id becomes current; with a new id it is the current address |
| AddressBook.Book.UpdateAddress | android/app/src/context/addressContext.tsx:34-36 | the list is replaced by id and the current id is unchanged |
| AddressBook.Book.SelectAddress | android/app/src/context/addressContext.tsx:38-40 | the current id is set without checking that it exists, and the list is unchanged |
| AddressList.DetailParts | android/app/src/MenuItems/address/Addresses.tsx:37-45 | no kept part is empty, so the joined line has no empty segment or doubled separator, and there are at most seven parts |
| AddressList.Details | android/app/src/MenuItems/address/Addresses.tsx:37-45 | the detail line, the kept parts joined by ", "; AddressList.DetailsEmpty, DetailsStreetOnly, DetailsOfFormRecord and DetailsEndWithNotes state its content |
| AddressList.DetailsEmpty | android/app/src/MenuItems/address/Addresses.tsx:37-45 | the detail line is empty exactly when every field it draws on is empty or absent |
| AddressList.DetailsStreetOnly | android/app/src/MenuItems/address/Addresses.tsx:37-45 | a record with only a street shows just the street |
| AddressList.DetailsOfFormRecord | android/app/src/MenuItems/address/Addresses.tsx:37-45 | building, "Flat " and the flat number only when one was typed, then the street, joined by ", " |
| AddressList.DetailsEndWithNotes | android/app/src/MenuItems/address/Addresses.tsx:44 | notes, when present, close the line, after "Notes: " |
| AddressList.Cards | android/app/src/MenuItems/address/Addresses.tsx:34-53 | one card per address in list order, titled with its label, showing its detail line, and checked iff its id is the current address's id |
| AddressList.OneChecked | android/app/src/MenuItems/address/Addresses.tsx:35-50 | with distinct ids, at most one card is checked; one is checked iff there is a current address; the checked card is the current address |
| AddressList.PressCardChecksIt | android/app/src/MenuItems/address/Addresses.tsx:48 | pressing a card selects its id, and afterwards that card and no other is checked |
| ConfirmLocation.SaveDisabled | android/app/src/MenuItems/address/ConfirmLocation.tsx:44 | saving is disabled iff the label or the building name is empty or only white space |
| ConfirmLocation.MenuCaption | android/app/src/MenuItems/address/ConfirmLocation.tsx:102 | the menu shows the label when there is one, in either mode, and "Select Label" otherwise |
| ConfirmLocation.FormRecord | android/app/src/MenuItems/address/ConfirmLocation.tsx:47-60 | the saved record has the place's text as the street; city, state, zip and phone are empty; building and flat are as typed; there are no notes |
| ConfirmLocation.FormRecordCard | android/app/src/MenuItems/address/ConfirmLocation.tsx:47-60 | the saved address's card shows building, flat (when typed) and street, and never the typed notes |
| ConfirmLocation.LabelForm.constructor | android/app/src/MenuItems/address/ConfirmLocation.tsx:22-29 | the label starts as 'Home' with the menu closed and empty fields, so saving starts disabled |
| ConfirmLocation.LabelForm.OpenMenu | android/app/src/MenuItems/address/ConfirmLocation.tsx:99 | the menu opens and nothing else changes |
| ConfirmLocation.LabelForm.DismissMenu | android/app/src/MenuItems/address/ConfirmLocation.tsx:95 | the menu closes and nothing else changes |
| ConfirmLocation.LabelForm.HandleLabelSelect | android/app/src/MenuItems/address/ConfirmLocation.tsx:32-41 | 'Custom' turns on custom mode with an empty label, which disables saving; any other choice becomes the label and turns custom mode off; the menu closes |
| ConfirmLocation.LabelForm.EditLabel | android/app/src/MenuItems/address/ConfirmLocation.tsx:114-120 | the custom label field, shown only in custom mode, sets the label |
| ConfirmLocation.LabelForm.EditBuildingName | android/app/src/MenuItems/address/ConfirmLocation.tsx:124-129 | the building name is set and nothing else changes |
| ConfirmLocation.LabelForm.EditFlatNumber | android/app/src/MenuItems/address/ConfirmLocation.tsx:132-137 | the flat number is set and nothing else changes |
| ConfirmLocation.LabelForm.EditNotes | android/app/src/MenuItems/address/ConfirmLocation.tsx:139-144 | the notes are set and nothing else changes |
| ConfirmLocation.LabelForm.HandleSave | android/app/src/MenuItems/address/ConfirmLocation.tsx:46-64 | with saving enabled, the record is appended and its id made current; with a fresh id it is the current address |
| ConfirmLocation.LegacyRecord | android/app/src/address/ConfirmLocation.tsx:25 | the older form's record has no building, flat or notes, so its card shows only the street |
| ConfirmLocation.LegacyForm.constructor | android/app/src/address/ConfirmLocation.tsx:21-22 | the label starts as 'Home' and the notes empty |
| ConfirmLocation.LegacyForm.EditLabel | android/app/src/address/ConfirmLocation.tsx:55-60 | the label is set and the notes kept |
| ConfirmLocation.LegacyForm.EditNotes | android/app/src/address/ConfirmLocation.tsx:61-66 | the notes are set and the label kept |
| ConfirmLocation.LegacyForm.HandleSave | android/app/src/address/ConfirmLocation.tsx:24-29 | with no validation, even an empty label, the record is appended and its id made current |
| LocationSearch.WithoutId | android/app/src/MenuItems/address/LocationSearch.tsx:52 | the filter keeps only entries of the list with another id, and returns the list itself when no entry has the id |
| LocationSearch.UniqueTail | android/app/src/MenuItems/address/LocationSearch.tsx:52 | the tail of a list with distinct ids has distinct ids, none equal to the head's |
| LocationSearch.WithoutIdRemovesOne | android/app/src/MenuItems/address/LocationSearch.tsx:52 | with distinct ids, filtering out entry p's id removes exactly that entry and keeps the rest in order |
| LocationSearch.WithoutIdUnique | android/app/src/MenuItems/address/LocationSearch.tsx:52 | filtering keeps ids distinct |
| LocationSearch.Remember | android/app/src/MenuItems/address/LocationSearch.tsx:52 | the new place is at the head; the list has at most 5 entries; the others are earlier entries with another id; its length is min(5, 1 + kept) |
| LocationSearch.RememberMovesToFront | android/app/src/MenuItems/address/LocationSearch.tsx:52 | a place already listed at position p is moved to the front, the others keep their order, and the first five are kept |
| LocationSearch.RememberNew | android/app/src/MenuItems/address/LocationSearch.tsx:52 | a place not yet listed goes in front of the whole list, and the first five are kept |
| LocationSearch.RememberUnique | android/app/src/MenuItems/address/LocationSearch.tsx:52 | starting from distinct ids, the list keeps distinct ids, so each place id occurs once |
| LocationSearch.RememberValid | android/app/src/MenuItems/address/LocationSearch.tsx:52 | a list of at most five places with distinct ids stays so after a place is remembered |
| LocationSearch.RememberIdempotent | android/app/src/MenuItems/address/LocationSearch.tsx:52 | picking the same place twice in a row leaves the list as after the first pick |
| LocationSearch.FromDetails | android/app/src/MenuItems/address/LocationSearch.tsx:43-48 | the recent place takes the details' place id, formatted address and coordinates |
| LocationSearch.RegionAround | android/app/src/MenuItems/address/LocationSearch.tsx:61-66 | the region is centred on the place and is 0.005 degrees across in both directions |
| LocationSearch.SearchScreen.constructor | android/app/src/MenuItems/address/LocationSearch.tsx:28-30 | no selection, no recent places and an empty search text at first, so the list is in shape (at most five, no id twice) |
| LocationSearch.SearchScreen.LoadRecent | android/app/src/MenuItems/address/LocationSearch.tsx:33-39 | a stored list replaces the recent list; with none stored nothing changes; the list stays in shape |
| LocationSearch.SearchScreen.EditSearchText | android/app/src/MenuItems/address/LocationSearch.tsx:103 | the search text is set and nothing else changes |
| LocationSearch.SearchScreen.HandleLocationSelect | android/app/src/MenuItems/address/LocationSearch.tsx:41-56 | without details nothing changes and nothing is stored; otherwise the place is selected and moved to the front of the recent list, which is also what is stored; the list stays in shape |
| LocationSearch.SearchScreen.PickRecent | android/app/src/MenuItems/address/LocationSearch.tsx:122-132 | picking a shown recent entry selects it and fills in its name without reordering the list; the list stays shown only if that name is empty |
| LocationSearch.SearchScreen.HandleConfirm | android/app/src/MenuItems/address/LocationSearch.tsx:58-69 | a region is produced iff a place is selected, and it is the region around that place |
| YourOrders.StatusStep | android/app/src/MenuItems/orders/YourOrders.tsx:51-57 | every status maps to a step below 5, so the label lookup is in bounds |
| YourOrders.StatusKey | android/app/src/MenuItems/orders/YourOrders.tsx:51-57 | the key of each status in `statusSteps`; YourOrders.StatusesDistinct shows the keys are distinct |
| YourOrders.StatusLabel | android/app/src/MenuItems/orders/YourOrders.tsx:104 | the badge text `stepLabels[statusSteps[status]]`; YourOrders.StatusesDistinct shows distinct statuses get distinct labels |
| YourOrders.StatusColor | android/app/src/MenuItems/orders/YourOrders.tsx:61-76 | getStatusColor gives '#aaa' exactly for keys outside the five statuses |
| YourOrders.StatusesDistinct | android/app/src/MenuItems/orders/YourOrders.tsx:51-76 | distinct statuses have distinct steps, keys, labels and colours, and no status falls through to '#aaa' |
| YourOrders.EffectiveStatus | android/app/src/MenuItems/orders/YourOrders.tsx:95 | a missing status counts as 'ordered', and a present one is used as is |
| YourOrders.CardOf | android/app/src/MenuItems/orders/YourOrders.tsx:94-111 | the card shows the order's service, item total, price, slot and time, with the badge label and colour of its effective status |
| YourOrders.View | android/app/src/MenuItems/orders/YourOrders.tsx:79-91 | the empty state is shown iff there are no orders; otherwise there is one card per order, in stored order |
| YourOrders.CheckoutOrderCard | android/app/src/MenuItems/orders/YourOrders.tsx:95 | an order placed at checkout reads "Ordered" on an orange badge and shows the cart's item total, price, slot and service |
| YourOrders.ViewAfterPlacing | android/app/src/MenuItems/orders/YourOrders.tsx:131-137 | after an order is placed, the earlier cards are unchanged and the new order's card comes last |
| Login.FindFrom | android/app/src/screens/LoginPage.tsx:156 | the first position at or after a start that holds the character, or none when no later position does |
| Login.IsValidEmail | android/app/src/screens/LoginPage.tsx:156 | the check accepts exactly the strings of the shape non-space '@' non-space '.' non-space |
| Login.IsValidMobile | android/app/src/screens/LoginPage.tsx:103 | `/^[6-9]\d{9}$/`: ten ASCII digits, the first 6 to 9; Login.LoginScreen.SendOtp gates the code on it |
| Login.EmailShapeNotBlank | android/app/src/screens/LoginPage.tsx:156 | an address of that shape is never blank, so the separate blank test never decides the outcome |
| Login.ProfileCheck | android/app/src/screens/LoginPage.tsx:150-159 | a blank first name moves focus there; otherwise a blank or malformed e-mail moves focus to it; otherwise the form is submitted |
| Login.NatToString | android/app/src/screens/LoginPage.tsx:69 | `toString()` of a natural number is one or more digits, exactly one below 10, and starts with '0' only for 0 |
| Login.NatToStringRoundTrip | android/app/src/screens/LoginPage.tsx:69 | reading the digits back gives the number |
| Login.PadTwo | android/app/src/screens/LoginPage.tsx:69 | `padStart(2, '0')` keeps a string of two or more characters and left-pads a shorter one with '0' to exactly two |
| Login.PadTwoSeconds | android/app/src/screens/LoginPage.tsx:67-69 | seconds below a minute come out as exactly two digits whose value is the seconds |
| Login.FormatTimerSpec | android/app/src/screens/LoginPage.tsx:65-70 | for a positive time the text is the minutes without a leading zero, ':' and two digits of seconds below 60, and reading them back gives the time |
| Login.FormatTimer | android/app/src/screens/LoginPage.tsx:65-70 | formatTimer; Login.FormatTimerSpec states its text for a positive time and Login.TimerText shows its expiry text is never displayed |
| Login.FormatTimerSamples | android/app/src/screens/LoginPage.tsx:65-70 | 120 seconds reads "2:00", 59 reads "0:59", and 0 reads the expiry message |
| Login.TimerText | android/app/src/screens/LoginPage.tsx:271-273 | the countdown line has its own expiry text at 0, so the formatter's expiry message never appears |
| Login.JoinedShort | android/app/src/screens/LoginPage.tsx:125-130 | with at most one character per box, the joined code is shorter than the number of boxes iff some box is empty |
| Login.Joined | android/app/src/screens/LoginPage.tsx:127 | `otp.join('')`; Login.JoinedShort and Login.VerifyBoxes state what the code check sees of it |
| Login.Verify | android/app/src/screens/LoginPage.tsx:125-148 | fewer than 4 joined characters is reported first; the code is accepted iff it is '1234'; then the user is new iff the mobile is '9876543210' |
| Login.VerifyBoxes | android/app/src/screens/LoginPage.tsx:125-148 | for four one-character boxes, the code is incomplete iff a box is empty, and accepted iff the boxes hold 1, 2, 3, 4 |
| Login.LoginScreen.constructor | android/app/src/screens/LoginPage.tsx:23-34 | an empty number, four empty boxes, a 120-second countdown and every flag off |
| Login.LoginScreen.EditMobile | android/app/src/screens/LoginPage.tsx:202-205 | typing sets the number and clears the error, and nothing else changes |
| Login.LoginScreen.SendOtp | android/app/src/screens/LoginPage.tsx:101-115 | a number of ten digits starting 6 to 9 moves to code entry with a fresh 120-second countdown; any other sets the error and leaves otpSent unchanged |
| Login.LoginScreen.Tick | android/app/src/screens/LoginPage.tsx:43-51 | the countdown drops by one only while a code is sent and time is left, so it never goes negative |
| Login.LoginScreen.ResendOtp | android/app/src/screens/LoginPage.tsx:117-123 | empty boxes, a 120-second countdown, no error and the resent flag; nothing else changes |
| Login.LoginScreen.ChangeNumber | android/app/src/screens/LoginPage.tsx:307-312 | back to number entry with empty boxes, no error and no resent flag; the countdown is left as it was |
| Login.LoginScreen.OtpChange | android/app/src/screens/LoginPage.tsx:168-176 | only box `index` takes the value and the error is cleared |
| Login.LoginScreen.VerifyOtp | android/app/src/screens/LoginPage.tsx:125-148 | an incomplete or wrong code sets its error; the right code marks the user verified, clears the error and records whether they are new; only a returning user is sent to the service list |
| Login.LoginScreen.EditFirstName | android/app/src/screens/LoginPage.tsx:331 | the first name is set and nothing else changes |
| Login.LoginScreen.EditEmail | android/app/src/screens/LoginPage.tsx:347 | the e-mail is set and nothing else changes |
| Login.LoginScreen.ProfileSubmit | android/app/src/screens/LoginPage.tsx:150-166 | submission goes ahead iff the first name is not blank and the e-mail has the required shape; a blank first name is reported first |

## Left out

- Date and time: the screens read the clock (`new Date()`, `Date.now()`,
  `toISOString()`). The model takes the minutes since midnight, the new id
  and the order time as parameters.
- Timers: the 60-second slot refresh, the one-second countdown interval,
  the mock one-second network delays on the login screen and the
  two-second confirmation on checkout. Each becomes a single step.
- Checkout.HandleConfirm: the "order placed" banner is shown, and then
  removed when the delay ends. The model does not track that banner.
- Navigation, alerts and focus moves are not modelled as such: a chosen
  route is a returned value, an alert's answer is a parameter (`Reply`),
  and a focus move is a result value (`ProfileResult`). This covers the
  keyboard dismissal, the shake animation, the `handleKeyPress` backspace
  focus and the auto-advance focus after an OTP box is filled. Checkout's
  "Back to Services" button on an empty cart is also not modelled.
- Device storage (AsyncStorage) of the recent places:
  `LocationSearch.SearchScreen.LoadRecent` takes what storage returned,
  and `HandleLocationSelect` returns what it would store. Reading and
  writing JSON is not modelled.
- The Places lookup that yields a place's details is left out. Its result
  comes in as an `Option<PlaceDetails>`.
- Coordinates and map regions are Dafny `real`s, not floating point.
- The map screens `MenuItems/address/LocationPicker.tsx` and
  `address/LocationPicker.tsx` are not part of this model, and neither is
  the older `address/LocationSearch.tsx`. They are GPS, geocoding, map
  views and place-search glue. The search box's `initialQuery` default is
  also left out.
- `formatDate` on the orders screen: `YourOrders.CardOf` carries the raw
  timestamp instead of the localised date string.
- The loading flags and spinners on the login screen are left out, as are
  the last-name field (it has no rule attached), styles, themes and the
  status bar.
- Login.IsValidEmail and Login.IsValidMobile: the regular expressions are
  stated as character predicates (ECMAScript `\s`, `\S` and ASCII `\d`),
  not run by a regex engine.
- `Profile.tsx` (a fixed display) and `SteamIron.tsx` (a placeholder
  screen) are not part of this model. `App.tsx`, `theme/theme.ts` and the
  navigator wiring are not modelled either. The one exception is the
  list of registered screen names, `ServiceSelection.Routes`.
- The per-item screens put `expectedKgs: 0` into the cart. The model
  records that, but nothing reads it back for those services.
- AddressBook.Book.AddAddress, ConfirmLocation.LabelForm.HandleSave and
  ConfirmLocation.LegacyForm.HandleSave promise that the new record is
  the current address only when its id is new. With a clashing
  `Date.now()` id, the current address is the earlier record with that id,
  and the model states no more than that.
- ServiceScreen.Screen.PressSlot: on the screens a press also re-runs
  the slot refresh at once and restarts its one-minute interval, since the
  effect depends on the selection. The model leaves that refresh to a later
  `UpdateSlots` call.
- LocationSearch.SearchScreen.LoadRecent requires the stored list to have
  at most five places and no id twice. Only `HandleLocationSelect` writes
  that key, and what it writes has that shape.
- ConfirmLocation.LabelForm.EditLabel requires custom mode, because the
  custom-label field is rendered only then.
