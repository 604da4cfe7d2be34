/**
 * The emergency-contact calls of the emergency service
 * (src/services/emergencyService.js) over an in-memory stand-in for the
 * `emergency_contacts` table: listing a user's contacts primary first,
 * inserting one, updating one by id and deleting by id.
 *
 * As for the alert calls, a failed request is a `storeOk` argument and the
 * result is `Err` instead of a thrown exception; ids come from `nextId`.
 */
module EmergencyContactStore {
  import opened Common
  import opened SeqUtil
  import opened Sorting
  import EmergencyService

  /** One row of `emergency_contacts`. */
  datatype ContactRow = ContactRow(
    id: nat,
    userId: Option<string>,
    name: Option<string>,
    phone: Option<string>,
    relationship: Option<string>,
    isPrimary: bool)

  /** The `contactData` argument of addEmergencyContact. */
  datatype ContactInput = ContactInput(
    userId: Option<string>,
    name: Option<string>,
    phone: Option<string>,
    relationship: Option<string>,
    isPrimary: Option<bool>)

  /** An update record for a contact: the columns it names (`Some`) are written. */
  datatype ContactPatch = ContactPatch(
    name: Option<string>,
    phone: Option<string>,
    relationship: Option<string>,
    isPrimary: Option<bool>)

  /** The row addEmergencyContact inserts: `is_primary` is `isPrimary || false`, so only a given `true` makes it primary. */
  function NewContactRow(id: nat, input: ContactInput): (row: ContactRow)
    ensures row.id == id && row.userId == input.userId && row.name == input.name
    ensures row.phone == input.phone && row.relationship == input.relationship
    ensures row.isPrimary <==> input.isPrimary == Some(true)
  {
    ContactRow(id, input.userId, input.name, input.phone, input.relationship, input.isPrimary == Some(true))
  }

  /** Writes the columns a patch names into a row; the id and the owner stay. */
  function ApplyContactPatch(row: ContactRow, p: ContactPatch): (r: ContactRow)
    ensures r.id == row.id && r.userId == row.userId
    ensures r.name == (if p.name.Some? then p.name else row.name)
    ensures r.phone == (if p.phone.Some? then p.phone else row.phone)
    ensures r.relationship == (if p.relationship.Some? then p.relationship else row.relationship)
    ensures r.isPrimary == p.isPrimary.GetOr(row.isPrimary)
  {
    row.(name := if p.name.Some? then p.name else row.name,
         phone := if p.phone.Some? then p.phone else row.phone,
         relationship := if p.relationship.Some? then p.relationship else row.relationship,
         isPrimary := p.isPrimary.GetOr(row.isPrimary))
  }

  /** `.update(p).eq('id', id)`: every row with that id gets the patch, the others are kept. */
  function PatchContacts(rows: seq<ContactRow>, id: nat, p: ContactPatch): (r: seq<ContactRow>)
    ensures |r| == |rows|
    ensures forall i | 0 <= i < |rows| :: r[i] == if rows[i].id == id then ApplyContactPatch(rows[i], p) else rows[i]
  {
    if rows == [] then []
    else [if rows[0].id == id then ApplyContactPatch(rows[0], p) else rows[0]] + PatchContacts(rows[1..], id, p)
  }

  predicate HasContact(rows: seq<ContactRow>, id: nat) {
    exists i | 0 <= i < |rows| :: rows[i].id == id
  }

  function ContactIndex(rows: seq<ContactRow>, id: nat): (i: nat)
    requires HasContact(rows, id)
    ensures i < |rows| && rows[i].id == id
  {
    if rows[0].id == id then 0 else ContactIndex(rows[1..], id) + 1
  }

  predicate UniqueContactIds(rows: seq<ContactRow>) {
    forall i, j | 0 <= i < j < |rows| :: rows[i].id != rows[j].id
  }

  /** `.order('is_primary', { ascending: false })`: primary contacts first. */
  function PrimaryFirst(c: ContactRow): SortKey {
    IntKey(if c.isPrimary then 0 else 1)
  }

  /**
   * getEmergencyContacts: the user's contacts, primary ones first. Within
   * each group the rows keep their table order.
   */
  function UserContacts(rows: seq<ContactRow>, userId: string): (r: seq<ContactRow>)
    ensures forall c :: multiset(r)[c] == if c.userId == Some(userId) then multiset(rows)[c] else 0
    ensures multiset(r) <= multiset(rows)
    ensures forall c :: c in r <==> c in rows && c.userId == Some(userId)
    ensures forall i, j | 0 <= i < j < |r| :: r[j].isPrimary ==> r[i].isPrimary
  {
    var mine := (c: ContactRow) => c.userId == Some(userId);
    var kept := Filter(rows, mine);
    var sorted := Sort(kept, PrimaryFirst);
    FilterMembershipAll(rows, mine);
    SortMembership(kept, PrimaryFirst);
    SortedAll(sorted, PrimaryFirst);
    FilterMultiset(rows, mine);
    FilterCount(rows, mine);
    sorted
  }

  /** `.delete().eq('id', id)`: every row with that id leaves, the others stay in order. */
  function DeleteWhere(rows: seq<ContactRow>, id: nat): (r: seq<ContactRow>)
    ensures forall c :: c in r <==> c in rows && c.id != id
    ensures IsSubsequence(r, rows)
  {
    var keep := (c: ContactRow) => c.id != id;
    FilterMembershipAll(rows, keep);
    FilterIsSubsequence(rows, keep);
    Filter(rows, keep)
  }

  /** The `emergency_contacts` table. */
  class ContactTable {
    var contacts: seq<ContactRow>
    var nextId: nat

    ghost predicate Valid()
      reads this
    {
      UniqueContactIds(contacts) && forall i | 0 <= i < |contacts| :: contacts[i].id < nextId
    }

    constructor ()
      ensures Valid() && contacts == [] && nextId == 0
    {
      contacts, nextId := [], 0;
    }

    /** getEmergencyContacts against the current rows. */
    function GetEmergencyContacts(userId: string, storeOk: bool): (r: Result<seq<ContactRow>, EmergencyService.StoreError>)
      reads this
      ensures r.Ok? <==> storeOk
      ensures r.Ok? ==> r.data == UserContacts(contacts, userId)
      ensures r.Err? ==> r.error == EmergencyService.RequestFailed
    {
      if storeOk then Ok(UserContacts(contacts, userId)) else Err(EmergencyService.RequestFailed)
    }

    /** addEmergencyContact: inserts one row, or changes nothing when the request fails. */
    method AddEmergencyContact(input: ContactInput, storeOk: bool) returns (res: Result<ContactRow, EmergencyService.StoreError>)
      requires Valid()
      modifies this
      ensures Valid()
      ensures !storeOk ==> res == Err(EmergencyService.RequestFailed) && contacts == old(contacts) && nextId == old(nextId)
      ensures storeOk ==> res == Ok(NewContactRow(old(nextId), input)) && contacts == old(contacts) + [res.data]
    {
      if !storeOk {
        return Err(EmergencyService.RequestFailed);
      }
      var row := NewContactRow(nextId, input);
      contacts := contacts + [row];
      nextId := nextId + 1;
      return Ok(row);
    }

    /**
     * updateEmergencyContact: writes the patch into the row with that id.
     * `.single()` turns a missing row into an error.
     */
    method UpdateEmergencyContact(contactId: nat, updates: ContactPatch, storeOk: bool)
      returns (res: Result<ContactRow, EmergencyService.StoreError>)
      requires Valid()
      modifies this`contacts
      ensures Valid()
      ensures !storeOk ==> res == Err(EmergencyService.RequestFailed) && contacts == old(contacts)
      ensures storeOk && !HasContact(old(contacts), contactId) ==>
                res == Err(EmergencyService.NoSingleRow) && contacts == old(contacts)
      ensures storeOk && HasContact(old(contacts), contactId) ==>
                contacts == PatchContacts(old(contacts), contactId, updates)
                && res == Ok(ApplyContactPatch(old(contacts)[ContactIndex(old(contacts), contactId)], updates))
    {
      if !storeOk {
        return Err(EmergencyService.RequestFailed);
      }
      if !HasContact(contacts, contactId) {
        return Err(EmergencyService.NoSingleRow);
      }
      var i := ContactIndex(contacts, contactId);
      contacts := PatchContacts(contacts, contactId, updates);
      return Ok(contacts[i]);
    }

    /** deleteEmergencyContact: removes the rows with that id; a missing id is not an error. */
    method DeleteEmergencyContact(contactId: nat, storeOk: bool) returns (res: Option<EmergencyService.StoreError>)
      requires Valid()
      modifies this`contacts
      ensures Valid()
      ensures !storeOk ==> res == Some(EmergencyService.RequestFailed) && contacts == old(contacts)
      ensures storeOk ==> res.None? && contacts == DeleteWhere(old(contacts), contactId)
    {
      if !storeOk {
        return Some(EmergencyService.RequestFailed);
      }
      var before := contacts;
      contacts := DeleteWhere(contacts, contactId);
      DeleteKeepsUnique(before, contactId, nextId);
      return None;
    }
  }

  /** Deleting keeps the ids unique and below the same bound. */
  lemma DeleteKeepsUnique(rows: seq<ContactRow>, id: nat, bound: nat)
    ensures UniqueContactIds(rows) ==> UniqueContactIds(DeleteWhere(rows, id))
    ensures (forall i | 0 <= i < |rows| :: rows[i].id < bound) ==>
              forall i | 0 <= i < |DeleteWhere(rows, id)| :: DeleteWhere(rows, id)[i].id < bound
  {
    var r := DeleteWhere(rows, id);
    if forall i | 0 <= i < |rows| :: rows[i].id < bound {
      forall i | 0 <= i < |r| ensures r[i].id < bound {
        assert r[i] in r;
      }
    }
    if UniqueContactIds(rows) {
      FilterKeepsUnique(rows, (c: ContactRow) => c.id != id);
    }
  }

  /** A filter of a list with unique ids has unique ids. */
  lemma {:induction false} FilterKeepsUnique(rows: seq<ContactRow>, p: ContactRow -> bool)
    requires UniqueContactIds(rows)
    ensures UniqueContactIds(Filter(rows, p))
  {
    if rows != [] {
      var tail := Filter(rows[1..], p);
      FilterKeepsUnique(rows[1..], p);
      if p(rows[0]) {
        FilterMembershipAll(rows[1..], p);
        forall j | 0 <= j < |tail| ensures rows[0].id != tail[j].id {
          assert tail[j] in rows[1..];
        }
        assert Filter(rows, p) == [rows[0]] + tail;
      }
    }
  }

  /** A contact added for a user is listed for that user afterwards. */
  lemma AddedIsListed(rows: seq<ContactRow>, input: ContactInput, id: nat, userId: string)
    requires input.userId == Some(userId)
    ensures NewContactRow(id, input) in UserContacts(rows + [NewContactRow(id, input)], userId)
  {
    var row := NewContactRow(id, input);
    assert row in rows + [row];
  }

  /** After a delete, no contact with that id is listed for anyone, and every other listed contact stays listed. */
  lemma DeletedIsNotListed(rows: seq<ContactRow>, id: nat, userId: string)
    ensures forall c | c in UserContacts(DeleteWhere(rows, id), userId) :: c.id != id
    ensures forall c | c in UserContacts(rows, userId) && c.id != id :: c in UserContacts(DeleteWhere(rows, id), userId)
  {
  }

  /** Making a contact primary moves it into the leading group of its user's list. */
  lemma SetPrimaryListsFirst(rows: seq<ContactRow>, id: nat, userId: string, i: int)
    requires 0 <= i < |rows| && rows[i].id == id && rows[i].userId == Some(userId)
    ensures var r := PatchContacts(rows, id, ContactPatch(None, None, None, Some(true)));
      var listed := UserContacts(r, userId);
      r[i] in listed && r[i].isPrimary
      && forall j, k | 0 <= j < |listed| && 0 <= k < |listed| && listed[j] == r[i] && !listed[k].isPrimary :: j < k
  {
    var r := PatchContacts(rows, id, ContactPatch(None, None, None, Some(true)));
    assert r[i] in r;
  }
}
