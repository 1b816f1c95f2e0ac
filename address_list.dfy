/** The saved-address list: one card per address, showing its label, a
    one-line summary of its fields, and a radio button that is checked for
    the current address. */
module AddressList {
  import opened Common
  import opened AddressBook

  /** An optional text field that `filter(Boolean)` keeps: present and
      not empty. */
  function Filled(o: Option<string>): bool {
    o.Some? && o.value != ""
  }

  function Kept(s: string): seq<string> {
    if s == "" then [] else [s]
  }

  /** The summary's parts after `filter(Boolean)`, in display order:
      building, "Flat " and the flat number, street, city, state, zip
      code, "Notes: " and the notes. */
  function DetailParts(a: Address): (r: seq<string>)
    ensures forall i :: 0 <= i < |r| ==> r[i] != ""
    ensures |r| <= 7
  {
    (if Filled(a.buildingName) then [a.buildingName.value] else [])
    + (if Filled(a.flatNumber) then ["Flat " + a.flatNumber.value] else [])
    + Kept(a.line1) + Kept(a.city) + Kept(a.state) + Kept(a.zip)
    + (if Filled(a.notes) then ["Notes: " + a.notes.value] else [])
  }

  /** The card's subtitle: the kept parts joined with ", ". */
  function Details(a: Address): string {
    Join(DetailParts(a), ", ")
  }

  /** The subtitle is empty exactly when every field it draws on is. */
  lemma DetailsEmpty(a: Address)
    ensures Details(a) == "" <==>
      && !Filled(a.buildingName) && !Filled(a.flatNumber) && !Filled(a.notes)
      && a.line1 == "" && a.city == "" && a.state == "" && a.zip == ""
  {
    JoinEmptyIffNoParts(DetailParts(a), ", ");
  }

  /** A record with only a street shows just the street. */
  lemma DetailsStreetOnly(a: Address)
    requires !Filled(a.buildingName) && !Filled(a.flatNumber) && !Filled(a.notes)
    requires a.city == "" && a.state == "" && a.zip == ""
    ensures Details(a) == a.line1
  {
    if a.line1 == "" {
      DetailsEmpty(a);
    } else {
      assert DetailParts(a) == [a.line1];
    }
  }

  /** A record from the newer confirm-location form shows the building,
      the flat when one was given, and the street, in that order. */
  lemma DetailsOfFormRecord(a: Address, building: string, flat: string)
    requires a.buildingName == Some(building) && building != ""
    requires a.flatNumber == Some(flat)
    requires a.line1 != "" && a.city == "" && a.state == "" && a.zip == ""
    requires a.notes == None
    ensures flat == "" ==> Details(a) == building + ", " + a.line1
    ensures flat != "" ==> Details(a) == building + ", " + "Flat " + flat + ", " + a.line1
  {
    var parts := DetailParts(a);
    if flat == "" {
      assert parts == [building, a.line1];
      assert parts[..1] == [building];
      assert Join(parts, ", ") == Join([building], ", ") + ", " + a.line1;
    } else {
      assert parts == [building, "Flat " + flat, a.line1];
      assert parts[..2] == [building, "Flat " + flat];
      assert parts[..2][..1] == [building];
      assert Join(parts[..2], ", ") == building + ", " + ("Flat " + flat);
      assert Join(parts, ", ") == Join(parts[..2], ", ") + ", " + a.line1;
    }
  }

  /** Notes, when present, close the subtitle. */
  lemma DetailsEndWithNotes(a: Address)
    requires Filled(a.notes)
    ensures var tail := "Notes: " + a.notes.value;
      |tail| <= |Details(a)| && Details(a)[|Details(a)| - |tail|..] == tail
  {
    var parts := DetailParts(a);
    var tail := "Notes: " + a.notes.value;
    assert parts[|parts| - 1] == tail;
    if |parts| > 1 {
      var d := Join(parts, ", ");
      assert d == Join(parts[..|parts| - 1], ", ") + ", " + tail;
    }
  }

  /** What one card shows. */
  datatype Card = Card(title: string, subtitle: string, checked: bool)

  /** The list's cards, in the book's order; `currentAddress?.id ===
      item.id` decides the radio button. */
  function Cards(list: seq<Address>, current: Option<Address>): (r: seq<Card>)
    ensures |r| == |list|
    ensures forall k :: 0 <= k < |list| ==> r[k].title == list[k].tag && r[k].subtitle == Details(list[k])
    ensures forall k :: 0 <= k < |list| ==> (r[k].checked <==> current.Some? && current.value.id == list[k].id)
  {
    seq(|list|, k requires 0 <= k < |list| =>
      Card(list[k].tag, Details(list[k]), current.Some? && current.value.id == list[k].id))
  }

  /** With distinct ids, exactly one card is checked when an address is
      current and none otherwise; the checked card is the current one. */
  lemma OneChecked(list: seq<Address>, currentId: Option<string>)
    requires UniqueIds(list)
    ensures var cards := Cards(list, Find(list, currentId));
      && (forall i, j :: 0 <= i < j < |cards| ==> !(cards[i].checked && cards[j].checked))
      && (Find(list, currentId).Some? <==> exists k :: 0 <= k < |cards| && cards[k].checked)
      && (forall k :: 0 <= k < |cards| && cards[k].checked ==> Some(list[k]) == Find(list, currentId))
  {
    var cur := Find(list, currentId);
    var cards := Cards(list, cur);
    if cur.Some? {
      var i := IndexOf(list, currentId.value);
      assert cards[i.value].checked;
      forall k | 0 <= k < |cards| && cards[k].checked ensures Some(list[k]) == cur {
        assert k == i.value;
      }
    }
  }

  /** Pressing card `k` selects its address: afterwards card `k` is the
      checked one. */
  lemma PressCardChecksIt(list: seq<Address>, k: nat)
    requires UniqueIds(list) && k < |list|
    ensures var cards := Cards(list, Find(list, Some(list[k].id)));
      cards[k].checked && forall j :: 0 <= j < |cards| && j != k ==> !cards[j].checked
  {
    FindIsFirst(list, list[k].id, k);
  }
}
