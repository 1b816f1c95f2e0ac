/** The location search screen: picking a place from the search results or
    from the list of recent places, the recent-places list it keeps (most
    recent first, no repeats, at most five), and the map region it hands on
    when the user confirms. */
module LocationSearch {
  import opened Common

  datatype RecentLocation = RecentLocation(id: string, name: string, lat: real, lng: real)

  /** The fields of a place's details that the screen reads. */
  datatype PlaceDetails = PlaceDetails(placeId: string, formattedAddress: string, lat: real, lng: real)

  datatype Region = Region(latitude: real, longitude: real, latitudeDelta: real, longitudeDelta: real)

  /** How many recent places are kept. */
  const MaxRecent := 5

  predicate UniqueIds(list: seq<RecentLocation>) {
    forall i, j :: 0 <= i < j < |list| ==> list[i].id != list[j].id
  }

  /** The shape every recent list has: at most five places, no place id
      twice. */
  predicate ValidRecent(list: seq<RecentLocation>) {
    |list| <= MaxRecent && UniqueIds(list)
  }

  /** `list.filter(l => l.id !== id)`. */
  function WithoutId(list: seq<RecentLocation>, id: string): (r: seq<RecentLocation>)
    ensures |r| <= |list|
    ensures forall k :: 0 <= k < |r| ==> r[k].id != id && r[k] in list
    ensures (forall k :: 0 <= k < |list| ==> list[k].id != id) ==> r == list
  {
    if list == [] then []
    else
      var rest := WithoutId(list[1..], id);
      if list[0].id == id then rest else [list[0]] + rest
  }

  /** The tail of a list with distinct ids has distinct ids, none of
      them the head's. */
  lemma UniqueTail(list: seq<RecentLocation>)
    requires UniqueIds(list) && list != []
    ensures UniqueIds(list[1..])
    ensures forall k :: 0 <= k < |list| - 1 ==> list[1..][k].id != list[0].id
  {
    var tail := list[1..];
    forall i, j | 0 <= i < j < |tail| ensures tail[i].id != tail[j].id {
      assert tail[i] == list[i + 1] && tail[j] == list[j + 1];
    }
    forall k | 0 <= k < |tail| ensures tail[k].id != list[0].id {
      assert tail[k] == list[k + 1];
    }
  }

  /** In a list with distinct ids, filtering out the id of entry `p`
      removes exactly that entry and keeps the rest in order. */
  lemma {:induction false} WithoutIdRemovesOne(list: seq<RecentLocation>, p: nat)
    requires UniqueIds(list) && p < |list|
    ensures WithoutId(list, list[p].id) == list[..p] + list[p + 1..]
  {
    var tail := list[1..];
    UniqueTail(list);
    if p > 0 {
      assert tail[p - 1] == list[p];
      WithoutIdRemovesOne(tail, p - 1);
      assert list[..p] == [list[0]] + tail[..p - 1];
      assert list[p + 1..] == tail[p..];
    }
  }

  /** Filtering a list with distinct ids keeps them distinct. */
  lemma {:induction false} WithoutIdUnique(list: seq<RecentLocation>, id: string)
    requires UniqueIds(list)
    ensures UniqueIds(WithoutId(list, id))
  {
    if list != [] {
      var tail := list[1..];
      UniqueTail(list);
      WithoutIdUnique(tail, id);
      var rest := WithoutId(tail, id);
      if list[0].id != id {
        forall k | 0 <= k < |rest| ensures rest[k].id != list[0].id {
          var m :| 0 <= m < |tail| && tail[m] == rest[k];
        }
      }
    }
  }

  /** `[location, ...recent.filter(l => l.id !== location.id)].slice(0, 5)`. */
  function Remember(loc: RecentLocation, recent: seq<RecentLocation>): (r: seq<RecentLocation>)
    ensures 1 <= |r| <= MaxRecent && r[0] == loc
    ensures forall k :: 1 <= k < |r| ==> r[k].id != loc.id && r[k] in recent
    ensures |r| == if 1 + |WithoutId(recent, loc.id)| < MaxRecent then 1 + |WithoutId(recent, loc.id)| else MaxRecent
  {
    var all := [loc] + WithoutId(recent, loc.id);
    if |all| < MaxRecent then all else all[..MaxRecent]
  }

  /** The first five of a list. */
  function Cap(s: seq<RecentLocation>): seq<RecentLocation> {
    if |s| < MaxRecent then s else s[..MaxRecent]
  }

  /** A pick moves the place to the front: an entry with the same id at
      position `p` is taken out, the others keep their order, and only the
      first five are kept. */
  lemma RememberMovesToFront(loc: RecentLocation, recent: seq<RecentLocation>, p: nat)
    requires UniqueIds(recent) && p < |recent| && recent[p].id == loc.id
    ensures Remember(loc, recent) == Cap([loc] + (recent[..p] + recent[p + 1..]))
  {
    WithoutIdRemovesOne(recent, p);
  }

  /** A place not in the list is put in front of all of it, and only the
      first five are kept. */
  lemma RememberNew(loc: RecentLocation, recent: seq<RecentLocation>)
    requires forall k :: 0 <= k < |recent| ==> recent[k].id != loc.id
    ensures Remember(loc, recent) == Cap([loc] + recent)
  {
  }

  /** Starting from distinct ids, the list keeps distinct ids. */
  lemma RememberUnique(loc: RecentLocation, recent: seq<RecentLocation>)
    requires UniqueIds(recent)
    ensures UniqueIds(Remember(loc, recent))
  {
    WithoutIdUnique(recent, loc.id);
    var r := Remember(loc, recent);
    var f := WithoutId(recent, loc.id);
    forall i, j | 0 <= i < j < |r| ensures r[i].id != r[j].id {
      if i > 0 {
        assert r[i] == f[i - 1] && r[j] == f[j - 1];
      }
    }
  }

  /** Remembering a place keeps a recent list in shape. */
  lemma RememberValid(loc: RecentLocation, recent: seq<RecentLocation>)
    requires ValidRecent(recent)
    ensures ValidRecent(Remember(loc, recent))
  {
    RememberUnique(loc, recent);
  }

  /** Picking the same place twice in a row leaves the list as it was after
      the first pick. */
  lemma RememberIdempotent(loc: RecentLocation, recent: seq<RecentLocation>)
    ensures Remember(loc, Remember(loc, recent)) == Remember(loc, recent)
  {
    var r := Remember(loc, recent);
    var f := WithoutId(recent, loc.id);
    assert r == [loc] + f[..|r| - 1];
    var g := WithoutId(r, loc.id);
    assert g == WithoutId(r[1..], loc.id);
    assert g == r[1..];
  }

  /** `details.place_id`, `formatted_address` and the location's
      coordinates, as a recent place. */
  function FromDetails(d: PlaceDetails): (l: RecentLocation)
    ensures l.id == d.placeId && l.name == d.formattedAddress && l.lat == d.lat && l.lng == d.lng
  {
    RecentLocation(d.placeId, d.formattedAddress, d.lat, d.lng)
  }

  /** The map region handed on at confirmation: centred on the place,
      0.005 degrees across. */
  function RegionAround(l: RecentLocation): (g: Region)
    ensures g.latitude == l.lat && g.longitude == l.lng
    ensures g.latitudeDelta == 0.005 && g.longitudeDelta == 0.005
  {
    Region(l.lat, l.lng, 0.005, 0.005)
  }

  /** The screen's state. */
  class SearchScreen {
    var selected: Option<RecentLocation>
    var recent: seq<RecentLocation>
    var searchText: string

    /** The recent list is always in shape. */
    predicate Valid()
      reads this
    {
      ValidRecent(recent)
    }

    constructor ()
      ensures Valid()
      ensures selected == None && recent == [] && searchText == ""
    {
      selected := None;
      recent := [];
      searchText := "";
    }

    /** The recent list is shown while the search box is empty and the
        list is not. */
    function ShowsRecent(): bool
      reads this
    {
      searchText == "" && |recent| > 0
    }

    /** The stored list replaces the empty one when storage has one.
        Only handleLocationSelect writes that key, so what storage holds
        is a list it built, and in shape. */
    method LoadRecent(saved: Option<seq<RecentLocation>>)
      requires Valid()
      requires saved.Some? ==> ValidRecent(saved.value)
      modifies this
      ensures Valid()
      ensures recent == if saved.Some? then saved.value else old(recent)
      ensures selected == old(selected) && searchText == old(searchText)
    {
      if saved.Some? {
        recent := saved.value;
      }
    }

    method EditSearchText(text: string)
      requires Valid()
      modifies this
      ensures Valid()
      ensures searchText == text && selected == old(selected) && recent == old(recent)
    {
      searchText := text;
    }

    /** handleLocationSelect: a result without details changes nothing;
        otherwise the place is selected and moved to the front of the
        recent list, which is also what gets stored. */
    method HandleLocationSelect(details: Option<PlaceDetails>) returns (stored: Option<seq<RecentLocation>>)
      requires Valid()
      modifies this
      ensures Valid()
      ensures stored.Some? ==> ValidRecent(stored.value)
      ensures details.None? ==> selected == old(selected) && recent == old(recent) && stored == None
      ensures details.Some? ==> selected == Some(FromDetails(details.value))
      ensures details.Some? ==> recent == Remember(FromDetails(details.value), old(recent)) && stored == Some(recent)
      ensures searchText == old(searchText)
    {
      stored := None;
      if details.Some? {
        var loc := FromDetails(details.value);
        selected := Some(loc);
        RememberValid(loc, recent);
        recent := Remember(loc, recent);
        stored := Some(recent);
      }
    }

    /** Pressing an entry of the shown recent list selects it and fills
        the search box with its name, which hides the list unless the name
        is empty. */
    method PickRecent(k: nat)
      requires Valid() && ShowsRecent() && k < |recent|
      modifies this
      ensures Valid()
      ensures selected == Some(old(recent)[k]) && searchText == old(recent)[k].name
      ensures recent == old(recent)
      ensures ShowsRecent() <==> searchText == ""
    {
      selected := Some(recent[k]);
      searchText := recent[k].name;
    }

    /** handleConfirm: the region around the selected place, or nothing
        when no place is selected. */
    method HandleConfirm() returns (region: Option<Region>)
      ensures region.Some? <==> selected.Some?
      ensures region.Some? ==> region.value == RegionAround(selected.value)
    {
      region := if selected.Some? then Some(RegionAround(selected.value)) else None;
    }
  }
}
