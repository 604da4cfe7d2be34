/**
 * The emergency service (src/services/emergencyService.js) over an
 * in-memory stand-in for the hosted database's `emergency_alerts` and
 * `alert_responses` tables.
 *
 * Every call resolves to `{ data, error }`: a failed request is modelled by
 * a boolean `storeOk` argument that says whether the database answered
 * without an error, and the result is `Err` instead of a thrown exception.
 * Columns the database fills in itself (ids, `status` defaulting to
 * 'pending', `created_at` / `response_time` defaulting to the current
 * time) are filled from `nextId` and the `now` argument.
 *
 * There is no conditional write here, no single-winner acceptance and no
 * status transition graph: an accepted response overwrites the alert's
 * status whatever it was.
 */
module EmergencyService {
  import opened Common
  import opened SeqUtil
  import opened Sorting

  datatype StoreError = RequestFailed | NoSingleRow

  /** One row of `emergency_alerts`. */
  datatype AlertRow = AlertRow(
    id: nat,
    victimId: Option<string>,
    emergencyType: Option<string>,
    title: Option<string>,
    description: Option<string>,
    latitude: Option<int>,
    longitude: Option<int>,
    address: Option<string>,
    priorityLevel: int,
    status: string,
    createdAt: int,
    resolvedAt: Option<int>)

  /** One row of `alert_responses`. */
  datatype ResponseRow = ResponseRow(
    id: nat,
    alertId: Option<nat>,
    volunteerId: Option<string>,
    estimatedArrival: Option<int>,
    message: Option<string>,
    isAccepted: bool,
    responseTime: int,
    rating: Option<int>)

  /** The `alertData` argument of createAlert. */
  datatype AlertInput = AlertInput(
    victimId: Option<string>,
    emergencyType: Option<string>,
    title: Option<string>,
    description: Option<string>,
    latitude: Option<int>,
    longitude: Option<int>,
    address: Option<string>,
    priorityLevel: Option<int>)

  /** The `responseData` argument of respondToAlert. */
  datatype ResponseInput = ResponseInput(
    alertId: Option<nat>,
    volunteerId: Option<string>,
    estimatedArrival: Option<int>,
    message: Option<string>,
    isAccepted: Option<bool>)

  /** An update record: the columns it names (`Some`) are written, the others are left alone. */
  datatype AlertPatch = AlertPatch(
    status: Option<string>,
    description: Option<string>,
    priorityLevel: Option<int>,
    resolvedAt: Option<int>)

  const EmptyPatch := AlertPatch(None, None, None, None)

  /** The `status` column default of `emergency_alerts`. */
  const DefaultStatus := "pending"

  const ActiveStatuses: set<string> := {"pending", "acknowledged", "in_progress"}

  /** The row createAlert inserts: `priority_level` is `priorityLevel || 3`. */
  function NewAlertRow(id: nat, input: AlertInput, now: int): (row: AlertRow)
    ensures row.id == id && row.status == DefaultStatus && row.createdAt == now && row.resolvedAt.None?
    ensures row.victimId == input.victimId && row.emergencyType == input.emergencyType && row.title == input.title
    ensures row.description == input.description && row.address == input.address
    ensures row.latitude == input.latitude && row.longitude == input.longitude
    ensures TruthyInt(input.priorityLevel) ==> row.priorityLevel == input.priorityLevel.value
    ensures !TruthyInt(input.priorityLevel) ==> row.priorityLevel == 3
  {
    AlertRow(id, input.victimId, input.emergencyType, input.title, input.description,
             input.latitude, input.longitude, input.address, IntOr(input.priorityLevel, 3),
             DefaultStatus, now, None)
  }

  /** The row respondToAlert inserts: `is_accepted` is `isAccepted || false`, the response time is the clock and there is no rating yet. */
  function NewResponseRow(id: nat, input: ResponseInput, now: int): (row: ResponseRow)
    ensures row.id == id && row.responseTime == now && row.rating.None?
    ensures row.alertId == input.alertId && row.volunteerId == input.volunteerId
    ensures row.estimatedArrival == input.estimatedArrival && row.message == input.message
    ensures row.isAccepted <==> input.isAccepted == Some(true)
  {
    ResponseRow(id, input.alertId, input.volunteerId, input.estimatedArrival, input.message,
                input.isAccepted.GetOr(false), now, None)
  }

  /**
   * `{ status, ...updates, ...(status === 'resolved' && { resolved_at: now }) }`:
   * a status in `updates` wins over the argument, and the resolution time wins
   * over a `resolved_at` in `updates`.
   */
  function UpdateData(status: string, updates: AlertPatch, now: int): (p: AlertPatch)
    ensures p.status == Some(updates.status.GetOr(status))
    ensures status == "resolved" ==> p.resolvedAt == Some(now)
    ensures status != "resolved" ==> p.resolvedAt == updates.resolvedAt
    ensures p.description == updates.description && p.priorityLevel == updates.priorityLevel
  {
    var spread := AlertPatch(Some(updates.status.GetOr(status)), updates.description, updates.priorityLevel, updates.resolvedAt);
    if status == "resolved" then spread.(resolvedAt := Some(now)) else spread
  }

  /** Writes the columns a patch names into a row. */
  function ApplyPatch(row: AlertRow, p: AlertPatch): (r: AlertRow)
    ensures r.id == row.id && r.victimId == row.victimId && r.createdAt == row.createdAt
    ensures r.status == p.status.GetOr(row.status)
    ensures r.resolvedAt == (if p.resolvedAt.Some? then p.resolvedAt else row.resolvedAt)
    ensures r.description == (if p.description.Some? then p.description else row.description)
    ensures r.priorityLevel == p.priorityLevel.GetOr(row.priorityLevel)
  {
    row.(status := p.status.GetOr(row.status),
         description := if p.description.Some? then p.description else row.description,
         priorityLevel := p.priorityLevel.GetOr(row.priorityLevel),
         resolvedAt := if p.resolvedAt.Some? then p.resolvedAt else row.resolvedAt)
  }

  /** `.update(p).eq('id', id)`: every row with that id gets the patch, the others are kept. */
  function PatchWhere(rows: seq<AlertRow>, id: nat, p: AlertPatch): (r: seq<AlertRow>)
    ensures |r| == |rows|
    ensures forall i | 0 <= i < |rows| :: r[i] == if rows[i].id == id then ApplyPatch(rows[i], p) else rows[i]
  {
    if rows == [] then []
    else [if rows[0].id == id then ApplyPatch(rows[0], p) else rows[0]] + PatchWhere(rows[1..], id, p)
  }

  predicate HasAlert(rows: seq<AlertRow>, id: nat) {
    exists i | 0 <= i < |rows| :: rows[i].id == id
  }

  function AlertIndex(rows: seq<AlertRow>, id: nat): (i: nat)
    requires HasAlert(rows, id)
    ensures i < |rows| && rows[i].id == id
  {
    if rows[0].id == id then 0 else AlertIndex(rows[1..], id) + 1
  }

  predicate UniqueAlertIds(rows: seq<AlertRow>) {
    forall i, j | 0 <= i < j < |rows| :: rows[i].id != rows[j].id
  }

  predicate UniqueResponseIds(rows: seq<ResponseRow>) {
    forall i, j | 0 <= i < j < |rows| :: rows[i].id != rows[j].id
  }

  predicate IsActive(a: AlertRow) {
    a.status in ActiveStatuses
  }

  function NewestFirst(a: AlertRow): SortKey {
    IntKey(-a.createdAt)
  }

  function LatestResponseFirst(r: ResponseRow): SortKey {
    IntKey(-r.responseTime)
  }

  /**
   * getActiveAlerts: `.in('status', ['pending', 'acknowledged', 'in_progress'])`
   * ordered by `created_at` descending. The location and radius arguments
   * are accepted and not used.
   */
  function ActiveAlerts(rows: seq<AlertRow>, location: Option<(int, int)>, radiusKm: int): (r: seq<AlertRow>)
    ensures forall a :: multiset(r)[a] == if IsActive(a) then multiset(rows)[a] else 0
    ensures multiset(r) <= multiset(rows)
    ensures forall a :: a in r <==> a in rows && IsActive(a)
    ensures forall i, j | 0 <= i < j < |r| :: r[i].createdAt >= r[j].createdAt
  {
    var kept := Filter(rows, IsActive);
    var sorted := Sort(kept, NewestFirst);
    FilterMembershipAll(rows, IsActive);
    SortMembership(kept, NewestFirst);
    SortedAll(sorted, NewestFirst);
    FilterMultiset(rows, IsActive);
    FilterCount(rows, IsActive);
    sorted
  }

  /** The options of getUserAlerts: an optional status and an optional limit (0 means none). */
  datatype AlertQuery = AlertQuery(status: Option<string>, limit: Option<nat>)

  predicate MatchesUserQuery(a: AlertRow, userId: string, status: Option<string>) {
    a.victimId == Some(userId) && (status.None? || status.value == "" || a.status == status.value)
  }

  /** The smaller of two counts. */
  function MinNat(a: nat, b: nat): nat {
    if a < b then a else b
  }

  /**
   * The answer of getUserAlerts before `.limit`: every copy of each stored
   * alert of the user that matches the status option, newest first.
   */
  function MatchingUserAlerts(rows: seq<AlertRow>, userId: string, status: Option<string>): (r: seq<AlertRow>)
    ensures forall a :: multiset(r)[a] == if MatchesUserQuery(a, userId, status) then multiset(rows)[a] else 0
    ensures forall i, j | 0 <= i < j < |r| :: r[i].createdAt >= r[j].createdAt
  {
    var matches := (a: AlertRow) => MatchesUserQuery(a, userId, status);
    var kept := Filter(rows, matches);
    var sorted := Sort(kept, NewestFirst);
    FilterCount(rows, matches);
    SortedAll(sorted, NewestFirst);
    sorted
  }

  /**
   * getUserAlerts: the user's alerts, newest first, restricted to
   * `options.status` when it is truthy, and the first `options.limit` of
   * them when that is truthy.
   */
  function UserAlerts(rows: seq<AlertRow>, userId: string, options: AlertQuery): (r: seq<AlertRow>)
    ensures var all := MatchingUserAlerts(rows, userId, options.status);
      if options.limit.Some? && options.limit.value > 0
      then |r| == MinNat(options.limit.value, |all|) && r == all[..|r|]
      else r == all
    ensures forall a | a in r :: a in rows && MatchesUserQuery(a, userId, options.status)
    ensures forall i, j | 0 <= i < j < |r| :: r[i].createdAt >= r[j].createdAt
  {
    var all := MatchingUserAlerts(rows, userId, options.status);
    var limited := if options.limit.Some? && options.limit.value > 0 then Take(all, options.limit.value) else all;
    forall a | a in limited ensures a in rows && MatchesUserQuery(a, userId, options.status) {
      assert multiset(all)[a] > 0;
    }
    limited
  }

  /** The answer of getVolunteerResponses before `.limit`: every copy of each response of the volunteer, latest first. */
  function VolunteerResponsesAll(rows: seq<ResponseRow>, volunteerId: string): (r: seq<ResponseRow>)
    ensures forall x :: multiset(r)[x] == if x.volunteerId == Some(volunteerId) then multiset(rows)[x] else 0
    ensures forall i, j | 0 <= i < j < |r| :: r[i].responseTime >= r[j].responseTime
  {
    var mine := (x: ResponseRow) => x.volunteerId == Some(volunteerId);
    var kept := Filter(rows, mine);
    var sorted := Sort(kept, LatestResponseFirst);
    FilterCount(rows, mine);
    SortedAll(sorted, LatestResponseFirst);
    sorted
  }

  /** getVolunteerResponses: the volunteer's responses, latest first, and the first `limit` of them when it is truthy. */
  function VolunteerResponses(rows: seq<ResponseRow>, volunteerId: string, limit: Option<nat>): (r: seq<ResponseRow>)
    ensures var all := VolunteerResponsesAll(rows, volunteerId);
      if limit.Some? && limit.value > 0
      then |r| == MinNat(limit.value, |all|) && r == all[..|r|]
      else r == all
    ensures forall x | x in r :: x in rows && x.volunteerId == Some(volunteerId)
    ensures forall i, j | 0 <= i < j < |r| :: r[i].responseTime >= r[j].responseTime
  {
    var all := VolunteerResponsesAll(rows, volunteerId);
    var limited := if limit.Some? && limit.value > 0 then Take(all, limit.value) else all;
    forall x | x in limited ensures x in rows && x.volunteerId == Some(volunteerId) {
      assert multiset(all)[x] > 0;
    }
    limited
  }

  /** The two tables the service writes. */
  class AlertTable {
    var alerts: seq<AlertRow>
    var responses: seq<ResponseRow>
    var nextId: nat

    ghost predicate Valid()
      reads this
    {
      UniqueAlertIds(alerts) && UniqueResponseIds(responses)
      && (forall i | 0 <= i < |alerts| :: alerts[i].id < nextId)
      && (forall i | 0 <= i < |responses| :: responses[i].id < nextId)
    }

    constructor ()
      ensures Valid() && alerts == [] && responses == [] && nextId == 0
    {
      alerts, responses, nextId := [], [], 0;
    }

    /** getActiveAlerts against the current rows: a failed request answers with the error. */
    function GetActiveAlerts(location: Option<(int, int)>, radiusKm: int, storeOk: bool): (r: Result<seq<AlertRow>, StoreError>)
      reads this
      ensures r.Ok? <==> storeOk
      ensures r.Err? ==> r.error == RequestFailed
      ensures r.Ok? ==> r.data == ActiveAlerts(alerts, location, radiusKm)
    {
      if storeOk then Ok(ActiveAlerts(alerts, location, radiusKm)) else Err(RequestFailed)
    }

    /** getUserAlerts against the current rows: a failed request answers with the error. */
    function GetUserAlerts(userId: string, options: AlertQuery, storeOk: bool): (r: Result<seq<AlertRow>, StoreError>)
      reads this
      ensures r.Ok? <==> storeOk
      ensures r.Err? ==> r.error == RequestFailed
      ensures r.Ok? ==> r.data == UserAlerts(alerts, userId, options)
    {
      if storeOk then Ok(UserAlerts(alerts, userId, options)) else Err(RequestFailed)
    }

    /** getVolunteerResponses against the current rows: a failed request answers with the error. */
    function GetVolunteerResponses(volunteerId: string, limit: Option<nat>, storeOk: bool): (r: Result<seq<ResponseRow>, StoreError>)
      reads this
      ensures r.Ok? <==> storeOk
      ensures r.Err? ==> r.error == RequestFailed
      ensures r.Ok? ==> r.data == VolunteerResponses(responses, volunteerId, limit)
    {
      if storeOk then Ok(VolunteerResponses(responses, volunteerId, limit)) else Err(RequestFailed)
    }

    /** createAlert: inserts one row, or changes nothing when the request fails. */
    method CreateAlert(input: AlertInput, now: int, storeOk: bool) returns (res: Result<AlertRow, StoreError>)
      requires Valid()
      modifies this
      ensures Valid() && responses == old(responses)
      ensures !storeOk ==> res == Err(RequestFailed) && alerts == old(alerts) && nextId == old(nextId)
      ensures storeOk ==> (res == Ok(NewAlertRow(old(nextId), input, now))
                           && alerts == old(alerts) + [res.data] && nextId == old(nextId) + 1)
    {
      if !storeOk {
        return Err(RequestFailed);
      }
      var row := NewAlertRow(nextId, input, now);
      alerts := alerts + [row];
      nextId := nextId + 1;
      return Ok(row);
    }

    /**
     * updateAlertStatus: writes `UpdateData(status, updates, now)` into the row
     * with that id. `.single()` turns a missing row into an error.
     */
    method UpdateAlertStatus(alertId: nat, status: string, updates: AlertPatch, now: int, storeOk: bool)
      returns (res: Result<AlertRow, StoreError>)
      requires Valid()
      modifies this`alerts
      ensures Valid()
      ensures !storeOk ==> res == Err(RequestFailed) && alerts == old(alerts)
      ensures storeOk && !HasAlert(old(alerts), alertId) ==> res == Err(NoSingleRow) && alerts == old(alerts)
      ensures storeOk && HasAlert(old(alerts), alertId) ==>
                alerts == PatchWhere(old(alerts), alertId, UpdateData(status, updates, now))
                && res == Ok(alerts[AlertIndex(old(alerts), alertId)])
    {
      if !storeOk {
        return Err(RequestFailed);
      }
      if !HasAlert(alerts, alertId) {
        return Err(NoSingleRow);
      }
      var i := AlertIndex(alerts, alertId);
      alerts := PatchWhere(alerts, alertId, UpdateData(status, updates, now));
      return Ok(alerts[i]);
    }

    /**
     * respondToAlert: inserts the response with `is_accepted` defaulting to
     * false; if that fails nothing else happens. An accepted response then
     * asks for status 'acknowledged' on its alert (the outcome of that write
     * is ignored) and the inserted response is returned either way.
     */
    method RespondToAlert(input: ResponseInput, now: int, insertOk: bool, statusWriteOk: bool)
      returns (res: Result<ResponseRow, StoreError>)
      requires Valid()
      modifies this
      ensures Valid()
      ensures !insertOk ==> res == Err(RequestFailed) && alerts == old(alerts) && responses == old(responses)
      ensures !insertOk ==> nextId == old(nextId)
      ensures insertOk ==> (res == Ok(NewResponseRow(old(nextId), input, now))
                           && responses == old(responses) + [res.data] && nextId == old(nextId) + 1)
      ensures insertOk && input.isAccepted == Some(true) && statusWriteOk && input.alertId.Some? ==>
                alerts == PatchWhere(old(alerts), input.alertId.value, UpdateData("acknowledged", EmptyPatch, now))
      ensures !(insertOk && input.isAccepted == Some(true) && statusWriteOk && input.alertId.Some?) ==>
                alerts == old(alerts)
    {
      if !insertOk {
        return Err(RequestFailed);
      }
      var accepted := input.isAccepted.GetOr(false);
      var row := NewResponseRow(nextId, input, now);
      responses := responses + [row];
      nextId := nextId + 1;
      if accepted && input.alertId.Some? {
        var ignored := UpdateAlertStatus(input.alertId.value, "acknowledged", EmptyPatch, now, statusWriteOk);
      }
      return Ok(row);
    }
  }

  // ---------------------------------------------------------------
  // Properties of the writes, stated on the rows they produce
  // ---------------------------------------------------------------

  /**
   * resolved_at is stamped exactly for status 'resolved'; with no
   * resolved_at in `updates`, every other status ('cancelled' included)
   * leaves it as it was. Rows with other ids do not change.
   */
  lemma ResolvedAtOnlyWhenResolved(rows: seq<AlertRow>, id: nat, status: string, updates: AlertPatch, now: int, i: int)
    requires 0 <= i < |rows| && updates.resolvedAt.None?
    ensures var r := PatchWhere(rows, id, UpdateData(status, updates, now));
      (rows[i].id == id && status == "resolved" ==> r[i].resolvedAt == Some(now))
      && (status != "resolved" ==> r[i].resolvedAt == rows[i].resolvedAt)
      && (rows[i].id != id ==> r[i] == rows[i])
  {
  }

  /** A status in `updates` overrides the status argument; the argument still decides resolved_at. */
  lemma UpdatesStatusWins(rows: seq<AlertRow>, id: nat, status: string, updates: AlertPatch, now: int, i: int)
    requires 0 <= i < |rows| && rows[i].id == id && updates.status.Some?
    ensures var r := PatchWhere(rows, id, UpdateData(status, updates, now));
      r[i].status == updates.status.value
      && (status == "resolved" ==> r[i].resolvedAt == Some(now))
  {
  }

  /**
   * The write an accepted response triggers makes the alert 'acknowledged'
   * whatever its status was (even 'resolved'), keeps its resolved_at, and so
   * puts it among the active alerts.
   */
  lemma AcceptOverwritesStatus(rows: seq<AlertRow>, id: nat, now: int, i: int)
    requires 0 <= i < |rows| && rows[i].id == id
    ensures var r := PatchWhere(rows, id, UpdateData("acknowledged", EmptyPatch, now));
      r[i].status == "acknowledged" && r[i].resolvedAt == rows[i].resolvedAt
      && r[i] in ActiveAlerts(r, None, 10)
  {
    var r := PatchWhere(rows, id, UpdateData("acknowledged", EmptyPatch, now));
    assert r[i] in r;
  }

  /** Resolving an alert removes it from the active list. */
  lemma ResolvedLeavesActive(rows: seq<AlertRow>, id: nat, now: int, i: int)
    requires 0 <= i < |rows| && rows[i].id == id
    ensures var r := PatchWhere(rows, id, UpdateData("resolved", EmptyPatch, now));
      r[i].status == "resolved" && r[i].resolvedAt == Some(now) && r[i] !in ActiveAlerts(r, None, 10)
  {
    var r := PatchWhere(rows, id, UpdateData("resolved", EmptyPatch, now));
    assert |r[i].status| == 8;
    assert !IsActive(r[i]);
  }

  /** The area arguments of getActiveAlerts do not change its answer. */
  lemma ActiveAlertsIgnoreArea(rows: seq<AlertRow>, l1: Option<(int, int)>, r1: int, l2: Option<(int, int)>, r2: int)
    ensures ActiveAlerts(rows, l1, r1) == ActiveAlerts(rows, l2, r2)
  {
  }

  /** With ids unique, the patch reaches exactly one row when the id exists, and `.single()` returns it. */
  lemma PatchWhereSingle(rows: seq<AlertRow>, id: nat, p: AlertPatch)
    requires UniqueAlertIds(rows) && HasAlert(rows, id)
    ensures var k := AlertIndex(rows, id); var r := PatchWhere(rows, id, p);
      r[k] == ApplyPatch(rows[k], p) && forall j | 0 <= j < |rows| && j != k :: r[j] == rows[j]
  {
  }
}
