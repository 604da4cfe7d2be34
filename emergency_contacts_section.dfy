/**
 * The emergency-contacts editor of the profile page
 * (src/pages/user-profile/components/EmergencyContactsSection.jsx).
 *
 * Contacts are objects: the list the editor starts from is the very array
 * (and the very objects) of its `contacts` prop, `filter` keeps the same
 * objects, and the spread updaters make new ones. Modelling them as heap
 * objects is what exposes the in-place write of `removeContact`.
 */
module EmergencyContactsSection {
  import opened JsText
  import opened Patterns
  import opened SeqUtil

  datatype ContactData = ContactData(id: int, name: string, relationship: string, phone: string, isPrimary: bool)

  datatype ContactField = NameField | RelationshipField | PhoneField

  class Contact {
    var id: int
    var name: string
    var relationship: string
    var phone: string
    var isPrimary: bool

    constructor (d: ContactData)
      ensures Data() == d
    {
      id, name, relationship, phone, isPrimary := d.id, d.name, d.relationship, d.phone, d.isPrimary;
    }

    function Data(): ContactData
      reads this
    {
      ContactData(id, name, relationship, phone, isPrimary)
    }
  }

  /** The field values of a list of contact objects. */
  function Snapshot(cs: seq<Contact>): (r: seq<ContactData>)
    reads cs
    ensures |r| == |cs|
    ensures forall i | 0 <= i < |cs| :: r[i] == cs[i].Data()
  {
    if cs == [] then [] else [cs[0].Data()] + Snapshot(cs[1..])
  }

  function PrimaryCount(ds: seq<ContactData>): (n: nat)
    ensures n <= |ds|
  {
    if ds == [] then 0 else (if ds[0].isPrimary then 1 else 0) + PrimaryCount(ds[1..])
  }

  lemma {:induction false} PrimaryCountPositive(ds: seq<ContactData>, i: int)
    requires 0 <= i < |ds| && ds[i].isPrimary
    ensures PrimaryCount(ds) >= 1
  {
    if i > 0 {
      PrimaryCountPositive(ds[1..], i - 1);
    }
  }

  lemma {:induction false} PrimaryCountZero(ds: seq<ContactData>)
    requires forall i | 0 <= i < |ds| :: !ds[i].isPrimary
    ensures PrimaryCount(ds) == 0
  {
    if ds != [] {
      PrimaryCountZero(ds[1..]);
    }
  }

  /** With distinct ids, a list where exactly the contact with `id` is primary has one primary. */
  lemma {:induction false} PrimaryCountOne(ds: seq<ContactData>, id: int)
    requires forall i, j | 0 <= i < j < |ds| :: ds[i].id != ds[j].id
    requires forall i | 0 <= i < |ds| :: ds[i].isPrimary <==> ds[i].id == id
    requires exists i | 0 <= i < |ds| :: ds[i].id == id
    ensures PrimaryCount(ds) == 1
  {
    if ds[0].id == id {
      PrimaryCountZero(ds[1..]);
    } else {
      PrimaryCountOne(ds[1..], id);
    }
  }

  function WithField(d: ContactData, field: ContactField, value: string): (r: ContactData)
    ensures r.id == d.id && r.isPrimary == d.isPrimary
    ensures r.name == (if field == NameField then value else d.name)
    ensures r.relationship == (if field == RelationshipField then value else d.relationship)
    ensures r.phone == (if field == PhoneField then value else d.phone)
  {
    match field
    case NameField => d.(name := value)
    case RelationshipField => d.(relationship := value)
    case PhoneField => d.(phone := value)
  }

  /**
   * An error key `${id}_${field}`. Field names hold no '_', so the text
   * determines the pair and the key is kept as the pair.
   */
  datatype ErrorKey = ErrorKey(id: int, field: ContactField)

  // ---------------------------------------------------------------
  // validateContacts
  // ---------------------------------------------------------------

  predicate ContactValid(d: ContactData) {
    !IsBlank(d.name) && d.relationship != "" && !IsBlank(d.phone) && PhoneValid(d.phone)
  }

  /** The entries the forEach body adds for one contact. */
  function ContactErrors(m: map<ErrorKey, string>, d: ContactData): map<ErrorKey, string> {
    var m1 := if IsBlank(d.name) then m[ErrorKey(d.id, NameField) := "Name is required"] else m;
    var m2 := if d.relationship == "" then m1[ErrorKey(d.id, RelationshipField) := "Relationship is required"] else m1;
    if IsBlank(d.phone) then m2[ErrorKey(d.id, PhoneField) := "Phone number is required"]
    else if !PhoneValid(d.phone) then m2[ErrorKey(d.id, PhoneField) := "Please enter a valid phone number"]
    else m2
  }

  /** One contact keeps the earlier entries, adds none when valid, and adds a key of its own for each failed field and no other. */
  lemma ContactErrorsKeys(m: map<ErrorKey, string>, d: ContactData)
    ensures m.Keys <= ContactErrors(m, d).Keys
    ensures ContactValid(d) ==> ContactErrors(m, d) == m
    ensures IsBlank(d.name) ==> ErrorKey(d.id, NameField) in ContactErrors(m, d)
    ensures d.relationship == "" ==> ErrorKey(d.id, RelationshipField) in ContactErrors(m, d)
    ensures IsBlank(d.phone) || !PhoneValid(d.phone) ==> ErrorKey(d.id, PhoneField) in ContactErrors(m, d)
    ensures forall k | k in ContactErrors(m, d) && k !in m ::
              k.id == d.id
              && (k.field == NameField ==> IsBlank(d.name))
              && (k.field == RelationshipField ==> d.relationship == "")
              && (k.field == PhoneField ==> IsBlank(d.phone) || !PhoneValid(d.phone))
  {
  }

  /** The errors of the contacts in list order (a later entry with the same key wins). */
  function ValidationErrors(ds: seq<ContactData>): map<ErrorKey, string> {
    if ds == [] then map[] else ContactErrors(ValidationErrors(ds[..|ds| - 1]), ds[|ds| - 1])
  }

  /** The contacts pass exactly when no error is recorded. */
  lemma {:induction false} ValidationErrorsEmpty(ds: seq<ContactData>)
    ensures ValidationErrors(ds) == map[] <==> AllValid(ds)
  {
    if ds != [] {
      var init := ds[..|ds| - 1];
      var last := ds[|ds| - 1];
      ValidationErrorsEmpty(init);
      assert ValidationErrors(ds) == ContactErrors(ValidationErrors(init), last);
      ContactErrorsEmpty(ValidationErrors(init), last);
      AllSplitLast(ds, ContactValid);
    }
  }

  /** Every contact passes validation. */
  predicate AllValid(ds: seq<ContactData>) {
    All(ds, ContactValid)
  }

  /** One contact adds nothing exactly when it is valid. */
  lemma ContactErrorsEmpty(m: map<ErrorKey, string>, d: ContactData)
    ensures ContactErrors(m, d) == map[] <==> m == map[] && ContactValid(d)
  {
    var r := ContactErrors(m, d);
    ContactErrorsKeys(m, d);
    if !ContactValid(d) {
      assert IsBlank(d.name) || d.relationship == "" || IsBlank(d.phone) || !PhoneValid(d.phone);
      assert exists key :: key in r;
    } else if m != map[] {
      assert exists key :: key in m;
    }
  }

  lemma ErrorsNeverShrink(ds: seq<ContactData>)
    requires ds != []
    ensures ValidationErrors(ds[..|ds| - 1]).Keys <= ValidationErrors(ds).Keys
  {
    ContactErrorsKeys(ValidationErrors(ds[..|ds| - 1]), ds[|ds| - 1]);
  }

  /** Each invalid contact has an error under its own key for each failed field. */
  lemma {:induction false} InvalidContactReported(ds: seq<ContactData>, i: int)
    requires 0 <= i < |ds|
    ensures IsBlank(ds[i].name) ==> ErrorKey(ds[i].id, NameField) in ValidationErrors(ds)
    ensures ds[i].relationship == "" ==> ErrorKey(ds[i].id, RelationshipField) in ValidationErrors(ds)
    ensures IsBlank(ds[i].phone) || !PhoneValid(ds[i].phone) ==> ErrorKey(ds[i].id, PhoneField) in ValidationErrors(ds)
  {
    if i < |ds| - 1 {
      var init := ds[..|ds| - 1];
      assert init[i] == ds[i];
      InvalidContactReported(init, i);
      ErrorsNeverShrink(ds);
    } else {
      ContactErrorsKeys(ValidationErrors(ds[..|ds| - 1]), ds[i]);
    }
  }

  /** The map of updateContact: a fresh edited copy for each contact with that id, the same object for the others. */
  method EditedCopies(list: seq<Contact>, id: int, field: ContactField, value: string) returns (next: seq<Contact>)
    ensures |next| == |list|
    ensures forall k | 0 <= k < |list| ::
              next[k].Data() == if list[k].id == id then WithField(list[k].Data(), field, value) else list[k].Data()
    ensures forall k | 0 <= k < |list| && list[k].id != id :: next[k] == list[k]
  {
    next := [];
    var i := 0;
    while i < |list|
      invariant 0 <= i <= |list| && |next| == i
      invariant forall k | 0 <= k < i :: next[k].Data() == if list[k].id == id then WithField(list[k].Data(), field, value) else list[k].Data()
      invariant forall k | 0 <= k < i && list[k].id != id :: next[k] == list[k]
    {
      var c := list[i];
      if c.id == id {
        c := new Contact(WithField(c.Data(), field, value));
      }
      next := next + [c];
      i := i + 1;
    }
  }

  class ContactsEditor {
    /** The `contacts` prop: the objects the editor was given. */
    const contacts: seq<Contact>
    ghost const initial: seq<ContactData>
    var contactList: seq<Contact>
    var isEditing: bool
    var isSaving: bool
    var errors: map<ErrorKey, string>

    /** The prop's objects still hold what they held when the editor was created. */
    ghost predicate Valid()
      reads contacts
    {
      Snapshot(contacts) == initial
    }

    constructor (contacts: seq<Contact>)
      ensures Valid() && this.contacts == contacts && initial == Snapshot(contacts)
      ensures contactList == contacts && !isEditing && !isSaving && errors == map[]
    {
      this.contacts := contacts;
      initial := Snapshot(contacts);
      contactList := contacts;
      isEditing, isSaving, errors := false, false, map[];
    }

    /** addContact: one blank contact at the end, primary exactly when the list was empty. */
    method AddContact(now: int)
      requires Valid()
      modifies this
      ensures Valid()
      ensures Snapshot(contactList) == old(Snapshot(contactList)) + [ContactData(now, "", "", "", old(|contactList|) == 0)]
      ensures errors == old(errors) && isEditing == old(isEditing) && isSaving == old(isSaving)
    {
      var c := new Contact(ContactData(now, "", "", "", |contactList| == 0));
      contactList := contactList + [c];
    }

    /**
     * updateContact: the matching contacts are replaced by edited copies, the
     * others stay the same objects; the error under `${id}_${field}` is
     * blanked if it was set.
     */
    method UpdateContact(id: int, field: ContactField, value: string)
      requires Valid()
      modifies this
      ensures Valid()
      ensures |contactList| == old(|contactList|)
      ensures forall k | 0 <= k < |contactList| ::
                contactList[k].Data() == if old(contactList[k].id) == id then WithField(old(contactList[k].Data()), field, value)
                                         else old(contactList[k].Data())
      ensures forall k | 0 <= k < |contactList| && old(contactList[k].id) != id :: contactList[k] == old(contactList[k])
      ensures var key := ErrorKey(id, field);
        errors == if key in old(errors) && old(errors)[key] != "" then old(errors)[key := ""] else old(errors)
      ensures isEditing == old(isEditing) && isSaving == old(isSaving)
    {
      var next := EditedCopies(contactList, id, field, value);
      contactList := next;
      var key := ErrorKey(id, field);
      if key in errors && errors[key] != "" {
        errors := errors[key := ""];
      }
    }

    /** setPrimaryContact: every contact is copied, primary exactly when its id matches. */
    method SetPrimaryContact(id: int)
      requires Valid()
      modifies this
      ensures Valid()
      ensures |contactList| == old(|contactList|)
      ensures forall k | 0 <= k < |contactList| ::
                contactList[k].Data() == old(contactList[k].Data()).(isPrimary := old(contactList[k].id) == id)
      ensures errors == old(errors) && isEditing == old(isEditing) && isSaving == old(isSaving)
    {
      var list := contactList;
      var next: seq<Contact> := [];
      var i := 0;
      while i < |list|
        invariant 0 <= i <= |list| && |next| == i
        invariant forall k | 0 <= k < i :: next[k].Data() == list[k].Data().(isPrimary := list[k].id == id)
        invariant errors == old(errors) && isEditing == old(isEditing) && isSaving == old(isSaving)
      {
        var c := new Contact(list[i].Data().(isPrimary := list[i].id == id));
        next := next + [c];
        i := i + 1;
      }
      contactList := next;
    }

    /**
     * removeContact as written: the survivors are the same objects, and when
     * none of them is primary the first one's `isPrimary` is set in place.
     * That object may be one of the prop's, which then changes too.
     */
    method RemoveContactInPlace(id: int)
      modifies this, contactList
      ensures contactList == old(FilterOut(contactList, id))
      ensures old(NoPrimary(FilterOut(contactList, id))) ==> contactList[0].isPrimary
      ensures |contactList| > 0 ==> exists k | 0 <= k < |contactList| :: contactList[k].isPrimary
      ensures forall c | c in old(contactList) ::
                c.Data() == old(c.Data()) || (|contactList| > 0 && c == contactList[0] && c.Data() == old(c.Data()).(isPrimary := true))
      ensures errors == old(errors) && isEditing == old(isEditing) && isSaving == old(isSaving)
    {
      var updated := FilterOut(contactList, id);
      if NoPrimary(updated) {
        assert updated[0] in contactList;
        updated[0].isPrimary := true;
        assert updated[0].isPrimary;
      }
      contactList := updated;
    }

    /**
     * removeContact as evidently intended: the first survivor is replaced by
     * a primary copy, so no object of the prop changes.
     */
    method RemoveContact(id: int)
      requires Valid()
      modifies this
      ensures Valid()
      ensures var kept := old(FilterOut(contactList, id));
        |contactList| == |kept|
        && (old(NoPrimary(FilterOut(contactList, id))) ==>
              contactList[0].Data() == kept[0].Data().(isPrimary := true) && contactList[1..] == kept[1..])
        && (!old(NoPrimary(FilterOut(contactList, id))) ==> contactList == kept)
      ensures |contactList| > 0 ==> exists k | 0 <= k < |contactList| :: contactList[k].isPrimary
      ensures errors == old(errors) && isEditing == old(isEditing) && isSaving == old(isSaving)
    {
      var updated := FilterOut(contactList, id);
      if NoPrimary(updated) {
        var first := new Contact(updated[0].Data().(isPrimary := true));
        updated := [first] + updated[1..];
        assert updated[0].isPrimary;
      } else if |updated| > 0 {
        var k :| 0 <= k < |updated| && updated[k].isPrimary;
      }
      contactList := updated;
    }

    /** validateContacts: the errors of every contact, in list order; true iff there are none. */
    method ValidateContacts() returns (ok: bool)
      requires Valid()
      modifies this
      ensures Valid()
      ensures errors == ValidationErrors(old(Snapshot(contactList)))
      ensures ok <==> AllValid(old(Snapshot(contactList)))
      ensures contactList == old(contactList) && isEditing == old(isEditing) && isSaving == old(isSaving)
    {
      var data := Snapshot(contactList);
      var newErrors := CollectErrors(data);
      errors := newErrors;
      ValidationErrorsEmpty(data);
      ok := newErrors == map[];
    }

    /** handleSave: nothing is saved unless the contacts validate; editing ends only when the save succeeds. */
    method HandleSave(saveSucceeds: bool) returns (saved: bool)
      requires Valid()
      modifies this
      ensures Valid()
      ensures saved <==> AllValid(old(Snapshot(contactList)))
      ensures isEditing == (old(isEditing) && !(saved && saveSucceeds))
      ensures isSaving == (old(isSaving) && !saved) && contactList == old(contactList)
    {
      saved := ValidateContacts();
      if !saved {
        return;
      }
      isSaving := true;
      if saveSucceeds {
        isEditing := false;
      }
      isSaving := false;
    }

    /** handleCancel: back to the prop's list, no errors, not editing. */
    method HandleCancel()
      modifies this
      ensures Valid() == old(Valid())
      ensures contactList == contacts && errors == map[] && !isEditing && isSaving == old(isSaving)
    {
      contactList := contacts;
      errors := map[];
      isEditing := false;
    }

    /** The Edit button (and "Add Emergency Contacts" on an empty list), shown while not editing. */
    method StartEditing()
      requires Valid() && !isEditing
      modifies this
      ensures Valid()
      ensures isEditing && contactList == old(contactList) && errors == old(errors) && isSaving == old(isSaving)
    {
      isEditing := true;
    }

    /** "Add Another Contact" (or "Add First Contact" on an empty list) is offered while editing a list of fewer than five. */
    function CanAdd(): (b: bool)
      reads this
      ensures b <==> isEditing && |contactList| < 5
    {
      isEditing && (|contactList| == 0 || (|contactList| > 0 && |contactList| < 5))
    }

    /** Remove is offered only while editing a list of more than one. */
    function CanRemove(): (b: bool)
      reads this
      ensures b <==> isEditing && |contactList| >= 2
    {
      isEditing && |contactList| > 1
    }
  }

  /** A non-empty list in which no contact is primary: the case removeContact repairs. */
  predicate NoPrimary(cs: seq<Contact>)
    reads cs
  {
    |cs| > 0 && forall k | 0 <= k < |cs| :: !cs[k].isPrimary
  }

  /** `filter(c => c.id !== id)` on the objects. */
  function FilterOut(cs: seq<Contact>, id: int): (r: seq<Contact>)
    reads cs
    ensures |r| <= |cs|
    ensures forall c | c in r :: c in cs && c.id != id
    ensures forall c | c in cs && c.id != id :: c in r
  {
    if cs == [] then []
    else if cs[0].id != id then [cs[0]] + FilterOut(cs[1..], id)
    else FilterOut(cs[1..], id)
  }

  /** Removing an id no contact carries keeps the list as it is. */
  lemma {:induction false} FilterOutAbsent(cs: seq<Contact>, id: int)
    requires forall k | 0 <= k < |cs| :: cs[k].id != id
    ensures FilterOut(cs, id) == cs
  {
    if cs != [] {
      FilterOutAbsent(cs[1..], id);
    }
  }

  /**
   * With distinct ids, removing one id drops at most one contact, so a
   * removal offered on a list of two or more leaves a contact, which
   * removeContact then makes primary if none is.
   */
  lemma {:induction false} RemovalLeavesAContact(cs: seq<Contact>, id: int)
    requires forall i, j | 0 <= i < j < |cs| :: cs[i].id != cs[j].id
    ensures |FilterOut(cs, id)| + 1 >= |cs|
    ensures |cs| >= 2 ==> |FilterOut(cs, id)| > 0
  {
    if cs != [] {
      RemovalLeavesAContact(cs[1..], id);
      if cs[0].id == id {
        assert forall k | 0 <= k < |cs[1..]| :: cs[1..][k].id == cs[k + 1].id;
        FilterOutAbsent(cs[1..], id);
      }
    }
  }

  /** The `forEach` of validateContacts: each contact's entries added in list order. */
  method CollectErrors(data: seq<ContactData>) returns (newErrors: map<ErrorKey, string>)
    ensures newErrors == ValidationErrors(data)
  {
    newErrors := map[];
    var i := 0;
    while i < |data|
      invariant 0 <= i <= |data|
      invariant newErrors == ValidationErrors(data[..i])
    {
      ValidationErrorsStep(data, i);
      newErrors := ContactErrors(newErrors, data[i]);
      i := i + 1;
    }
    ValidationErrorsWhole(data);
  }

  lemma ValidationErrorsWhole(data: seq<ContactData>)
    ensures ValidationErrors(data[..|data|]) == ValidationErrors(data)
  {
    assert data[..|data|] == data;
  }

  lemma ValidationErrorsStep(data: seq<ContactData>, i: int)
    requires 0 <= i < |data|
    ensures ValidationErrors(data[..i + 1]) == ContactErrors(ValidationErrors(data[..i]), data[i])
  {
    assert data[..i + 1][..i] == data[..i];
  }

  lemma SnapshotPair(a: Contact, b: Contact)
    ensures Snapshot([a, b]) == [a.Data(), b.Data()]
  {
    assert [a, b][1..] == [b];
  }

  lemma PrimaryCountPair(x: ContactData, y: ContactData)
    ensures PrimaryCount([x, y]) == (if x.isPrimary then 1 else 0) + (if y.isPrimary then 1 else 0)
  {
    assert [x, y][1..] == [y];
  }

  lemma FilterOutSecond(a: Contact, b: Contact)
    requires a.id != b.id
    ensures FilterOut([a, b], b.id) == [a]
  {
    assert [a, b][1..] == [b];
    assert FilterOut([b], b.id) == FilterOut([], b.id);
  }

  /** Two contacts, neither primary, and the second removed in place: the first is now primary, on the prop's own object. */
  method RemoveSecondInPlace() returns (a: Contact, b: Contact, editor: ContactsEditor)
    ensures fresh(a) && fresh(b) && fresh(editor) && a != b
    ensures editor.contacts == [a, b] && editor.contactList == [a]
    ensures a.isPrimary && !b.isPrimary
  {
    a := new Contact(ContactData(1, "Ann", "spouse", "5551234567", false));
    b := new Contact(ContactData(2, "Bob", "friend", "5557654321", false));
    editor := new ContactsEditor([a, b]);
    FilterOutSecond(a, b);
    assert NoPrimary([a]);
    editor.RemoveContactInPlace(2);
    assert editor.contactList == [a] && a.isPrimary;
    assert b in [a, b] && b != editor.contactList[0];
  }

  /**
   * Two contacts, neither primary; remove the second, then cancel. With the
   * in-place write the list restored from the prop now shows a primary.
   */
  method RemoveThenCancelInPlace() returns (primaries: nat)
    ensures primaries == 1
  {
    var a, b, editor := RemoveSecondInPlace();
    editor.HandleCancel();
    SnapshotPair(a, b);
    PrimaryCountPair(a.Data(), b.Data());
    primaries := PrimaryCount(Snapshot(editor.contactList));
  }

  /** The same steps with the copying removal: cancel restores a list with no primary. */
  method RemoveThenCancel() returns (primaries: nat)
    ensures primaries == 0
  {
    var a := new Contact(ContactData(1, "Ann", "spouse", "5551234567", false));
    var b := new Contact(ContactData(2, "Bob", "friend", "5557654321", false));
    var editor := new ContactsEditor([a, b]);
    FilterOutSecond(a, b);
    editor.RemoveContact(2);
    assert !a.isPrimary && !b.isPrimary;
    editor.HandleCancel();
    SnapshotPair(a, b);
    PrimaryCountPair(a.Data(), b.Data());
    primaries := PrimaryCount(Snapshot(editor.contactList));
  }

  /**
   * With the copying removal, no edit reaches the prop's objects: whatever
   * is added, edited, made primary, removed or validated, cancel restores
   * exactly the contacts the editor was given.
   */
  method CancelRestoresInitial(contacts: seq<Contact>, id: int, field: ContactField, value: string, now: int)
    returns (restored: seq<ContactData>)
    ensures restored == old(Snapshot(contacts))
  {
    var editor := new ContactsEditor(contacts);
    editor.StartEditing();
    editor.AddContact(now);
    editor.UpdateContact(id, field, value);
    editor.SetPrimaryContact(id);
    editor.RemoveContact(id);
    var _ := editor.ValidateContacts();
    editor.HandleCancel();
    restored := Snapshot(editor.contactList);
  }
}
