/** The address context: a list of saved addresses and the id of the
    current one, looked up on demand. */
module AddressBook {
  import opened Common

  datatype Coords = Coords(latitude: real, longitude: real)

  /** An address record. `tag` is the record's `label`; `buildingName`,
      `flatNumber` and `notes` are written by the newer confirm-location
      screen and read by the address list, so they are optional here. */
  datatype Address = Address(
    id: string,
    tag: string,
    line1: string,
    line2: Option<string>,
    city: string,
    state: string,
    zip: string,
    phone: string,
    coords: Option<Coords>,
    buildingName: Option<string>,
    flatNumber: Option<string>,
    notes: Option<string>)

  predicate HasId(list: seq<Address>, id: string) {
    exists k :: 0 <= k < |list| && list[k].id == id
  }

  predicate UniqueIds(list: seq<Address>) {
    forall i, j :: 0 <= i < j < |list| ==> list[i].id != list[j].id
  }

  /** Position of the first address with `id`. */
  function IndexOf(list: seq<Address>, id: string): (r: Option<nat>)
    ensures r.Some? ==> r.value < |list| && list[r.value].id == id
    ensures r.Some? ==> forall j :: 0 <= j < r.value ==> list[j].id != id
    ensures r.None? <==> !HasId(list, id)
  {
    if list == [] then None
    else if list[0].id == id then Some(0)
    else match IndexOf(list[1..], id)
      case None =>
        assert forall k :: 1 <= k < |list| ==> list[k] == list[1..][k - 1];
        None
      case Some(k) => Some(k + 1)
  }

  /** `addresses.find(a => a.id === currentId)`; an unset id finds
      nothing. */
  function Find(list: seq<Address>, currentId: Option<string>): (r: Option<Address>)
    ensures r.Some? ==> currentId.Some? && r.value.id == currentId.value
    ensures r.None? <==> currentId.None? || !HasId(list, currentId.value)
    ensures r.Some? ==> exists k :: 0 <= k < |list| && list[k] == r.value
  {
    if currentId.None? then None
    else match IndexOf(list, currentId.value)
      case None => None
      case Some(k) => Some(list[k])
  }

  /** The found address is the first one with that id. */
  lemma FindIsFirst(list: seq<Address>, id: string, k: nat)
    requires k < |list| && list[k].id == id
    requires forall j :: 0 <= j < k ==> list[j].id != id
    ensures Find(list, Some(id)) == Some(list[k])
  {
    var i := IndexOf(list, id);
    assert i.Some?;
    assert i.value == k by {
      assert i.value <= k;
      assert i.value >= k;
    }
  }

  /** `prev.map(a => a.id === addr.id ? addr : a)`. */
  function ReplaceById(list: seq<Address>, a: Address): (r: seq<Address>)
    ensures |r| == |list|
    ensures forall k :: 0 <= k < |list| ==> r[k] == if list[k].id == a.id then a else list[k]
  {
    seq(|list|, k requires 0 <= k < |list| => if list[k].id == a.id then a else list[k])
  }

  /** updateAddress with an id nobody has is a no-op; otherwise the
      updated record is what a lookup by that id finds, ids and the
      order of entries are kept, and a unique-id list stays unique. */
  lemma ReplaceByIdSpec(list: seq<Address>, a: Address)
    ensures !HasId(list, a.id) ==> ReplaceById(list, a) == list
    ensures HasId(list, a.id) ==> Find(ReplaceById(list, a), Some(a.id)) == Some(a)
    ensures forall k :: 0 <= k < |list| ==> ReplaceById(list, a)[k].id == list[k].id
    ensures UniqueIds(list) ==> UniqueIds(ReplaceById(list, a))
  {
    var r := ReplaceById(list, a);
    if HasId(list, a.id) {
      var i := IndexOf(list, a.id);
      FindIsFirst(r, a.id, i.value);
    }
  }

  /** After adding an address whose id is new, it is the current one. */
  lemma FindAfterAppend(list: seq<Address>, a: Address)
    requires !HasId(list, a.id)
    ensures Find(list + [a], Some(a.id)) == Some(a)
  {
    FindIsFirst(list + [a], a.id, |list|);
  }

  /** The provider's state. */
  class Book {
    var addresses: seq<Address>
    var currentId: Option<string>

    /** No addresses and no current id at first. */
    constructor ()
      ensures addresses == [] && currentId == None
      ensures CurrentAddress() == None
    {
      addresses := [];
      currentId := None;
    }

    /** `currentAddress`. */
    function CurrentAddress(): (r: Option<Address>)
      reads this
      ensures r.Some? ==> currentId == Some(r.value.id) && r.value in addresses
      ensures r.None? <==> currentId.None? || !HasId(addresses, currentId.value)
    {
      Find(addresses, currentId)
    }

    /** addAddress appends and makes the new id current. */
    method AddAddress(a: Address)
      modifies this
      ensures addresses == old(addresses) + [a] && currentId == Some(a.id)
      ensures !HasId(old(addresses), a.id) ==> CurrentAddress() == Some(a)
    {
      addresses := addresses + [a];
      currentId := Some(a.id);
      if !HasId(old(addresses), a.id) {
        FindAfterAppend(old(addresses), a);
      }
    }

    /** updateAddress replaces every entry with the same id. */
    method UpdateAddress(a: Address)
      modifies this
      ensures addresses == ReplaceById(old(addresses), a) && currentId == old(currentId)
    {
      addresses := ReplaceById(addresses, a);
    }

    /** selectAddress sets the current id without checking it. */
    method SelectAddress(id: string)
      modifies this
      ensures currentId == Some(id) && addresses == old(addresses)
      ensures CurrentAddress() == Find(addresses, Some(id))
    {
      currentId := Some(id);
    }
  }
}
