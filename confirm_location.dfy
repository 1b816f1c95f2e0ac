/** The two confirm-location forms that turn a picked place into a saved
    address: the newer one with a label menu, a required building name, an
    optional flat number and notes; and the older one with a free label and
    no checks. */
module ConfirmLocation {
  import opened Common
  import opened AddressBook
  import AddressList

  /** `!label.trim() || !buildingName.trim()`: saving is blocked while the
      label or the building name is empty or only white space. */
  function SaveDisabled(tag: string, buildingName: string): (d: bool)
    ensures d <==> IsBlank(tag) || IsBlank(buildingName)
  {
    Trim(tag) == "" || Trim(buildingName) == ""
  }

  /** The menu button's caption, `isCustomLabel && label ? label : label ||
      'Select Label'`: the label when there is one, whatever the mode. */
  function MenuCaption(isCustomLabel: bool, tag: string): (c: string)
    ensures tag != "" ==> c == tag
    ensures tag == "" ==> c == "Select Label"
  {
    if isCustomLabel && tag != "" then tag
    else if tag != "" then tag
    else "Select Label"
  }

  /** The record handleSave builds: the place's text as the street, empty
      city, state, zip code and phone, the building and flat as typed, and
      no notes, whatever was typed into the notes field. */
  function FormRecord(id: string, tag: string, line1: string, coords: Option<Coords>,
                      buildingName: string, flatNumber: string): (a: Address)
    ensures a.id == id && a.tag == tag && a.line1 == line1 && a.coords == coords
    ensures a.buildingName == Some(buildingName) && a.flatNumber == Some(flatNumber)
    ensures a.notes == None && a.line2 == None
    ensures a.city == "" && a.state == "" && a.zip == "" && a.phone == ""
  {
    Address(id, tag, line1, None, "", "", "", "", coords, Some(buildingName), Some(flatNumber), None)
  }

  /** The saved address's card shows the building, the flat when one was
      typed, and the street; the typed notes never appear. */
  lemma FormRecordCard(id: string, tag: string, line1: string, coords: Option<Coords>,
                       buildingName: string, flatNumber: string)
    requires !SaveDisabled(tag, buildingName) && line1 != ""
    ensures var d := AddressList.Details(FormRecord(id, tag, line1, coords, buildingName, flatNumber));
      && (flatNumber == "" ==> d == buildingName + ", " + line1)
      && (flatNumber != "" ==> d == buildingName + ", " + "Flat " + flatNumber + ", " + line1)
  {
    AddressList.DetailsOfFormRecord(FormRecord(id, tag, line1, coords, buildingName, flatNumber), buildingName, flatNumber);
  }

  /** The newer form's state. */
  class LabelForm {
    var tag: string
    var isCustomLabel: bool
    var menuVisible: bool
    var buildingName: string
    var flatNumber: string
    var notes: string

    /** Starts on "Home", menu closed, every text field empty. */
    constructor ()
      ensures tag == "Home" && !isCustomLabel && !menuVisible
      ensures buildingName == "" && flatNumber == "" && notes == ""
      ensures SaveDisabled(tag, buildingName)
    {
      tag := "Home";
      isCustomLabel := false;
      menuVisible := false;
      buildingName := "";
      flatNumber := "";
      notes := "";
    }

    method OpenMenu()
      modifies this
      ensures menuVisible
      ensures tag == old(tag) && isCustomLabel == old(isCustomLabel)
      ensures buildingName == old(buildingName) && flatNumber == old(flatNumber) && notes == old(notes)
    {
      menuVisible := true;
    }

    /** Dismissing the menu closes it. */
    method DismissMenu()
      modifies this
      ensures !menuVisible
      ensures tag == old(tag) && isCustomLabel == old(isCustomLabel)
      ensures buildingName == old(buildingName) && flatNumber == old(flatNumber) && notes == old(notes)
    {
      menuVisible := false;
    }

    /** handleLabelSelect: 'Custom' switches to a typed label that starts
        empty, so saving is blocked until one is typed; any other choice
        becomes the label. The menu closes either way. */
    method HandleLabelSelect(choice: string)
      modifies this
      ensures !menuVisible
      ensures choice == "Custom" ==> isCustomLabel && tag == ""
      ensures choice != "Custom" ==> !isCustomLabel && tag == choice
      ensures choice == "Custom" ==> SaveDisabled(tag, buildingName)
      ensures buildingName == old(buildingName) && flatNumber == old(flatNumber) && notes == old(notes)
    {
      if choice == "Custom" {
        isCustomLabel := true;
        tag := "";
      } else {
        isCustomLabel := false;
        tag := choice;
      }
      menuVisible := false;
    }

    /** The custom-label field exists only in custom mode. */
    method EditLabel(text: string)
      requires isCustomLabel
      modifies this
      ensures tag == text && isCustomLabel && menuVisible == old(menuVisible)
      ensures buildingName == old(buildingName) && flatNumber == old(flatNumber) && notes == old(notes)
    {
      tag := text;
    }

    method EditBuildingName(text: string)
      modifies this
      ensures buildingName == text
      ensures tag == old(tag) && isCustomLabel == old(isCustomLabel) && menuVisible == old(menuVisible)
      ensures flatNumber == old(flatNumber) && notes == old(notes)
    {
      buildingName := text;
    }

    method EditFlatNumber(text: string)
      modifies this
      ensures flatNumber == text
      ensures tag == old(tag) && isCustomLabel == old(isCustomLabel) && menuVisible == old(menuVisible)
      ensures buildingName == old(buildingName) && notes == old(notes)
    {
      flatNumber := text;
    }

    method EditNotes(text: string)
      modifies this
      ensures notes == text
      ensures tag == old(tag) && isCustomLabel == old(isCustomLabel) && menuVisible == old(menuVisible)
      ensures buildingName == old(buildingName) && flatNumber == old(flatNumber)
    {
      notes := text;
    }

    /** handleSave, reachable only while the button is enabled: the record
        is appended and made current; with a fresh id it is the current
        address afterwards. The form's notes are left out of the record. */
    method HandleSave(book: Book, id: string, line1: string, coords: Option<Coords>)
      requires !SaveDisabled(tag, buildingName)
      modifies book
      ensures var a := FormRecord(id, tag, line1, coords, buildingName, flatNumber);
        && book.addresses == old(book.addresses) + [a]
        && book.currentId == Some(id)
        && (!HasId(old(book.addresses), id) ==> book.CurrentAddress() == Some(a))
    {
      var a := FormRecord(id, tag, line1, coords, buildingName, flatNumber);
      book.AddAddress(a);
      book.SelectAddress(a.id);
    }
  }

  /** The record the older form saves: no building, flat or notes. */
  function LegacyRecord(id: string, tag: string, line1: string, coords: Option<Coords>): (a: Address)
    ensures a.id == id && a.tag == tag && a.line1 == line1 && a.coords == coords
    ensures a.buildingName == None && a.flatNumber == None && a.notes == None
    ensures AddressList.Details(a) == line1
  {
    var a := Address(id, tag, line1, None, "", "", "", "", coords, None, None, None);
    AddressList.DetailsStreetOnly(a);
    a
  }

  /** The older form's state: a label and notes that are never saved. */
  class LegacyForm {
    var tag: string
    var notes: string

    constructor ()
      ensures tag == "Home" && notes == ""
    {
      tag := "Home";
      notes := "";
    }

    method EditLabel(text: string)
      modifies this
      ensures tag == text && notes == old(notes)
    {
      tag := text;
    }

    method EditNotes(text: string)
      modifies this
      ensures notes == text && tag == old(tag)
    {
      notes := text;
    }

    /** handleSave saves whatever the label is, even an empty one. */
    method HandleSave(book: Book, id: string, line1: string, coords: Option<Coords>)
      modifies book
      ensures book.addresses == old(book.addresses) + [LegacyRecord(id, tag, line1, coords)]
      ensures book.currentId == Some(id)
      ensures !HasId(old(book.addresses), id) ==> book.CurrentAddress() == Some(LegacyRecord(id, tag, line1, coords))
    {
      var a := LegacyRecord(id, tag, line1, coords);
      book.AddAddress(a);
      book.SelectAddress(a.id);
    }
  }
}
