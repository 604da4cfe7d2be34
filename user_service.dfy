/**
 * The user service (src/services/userService.js): profile writes over an
 * in-memory `user_profiles` table, the statistics a user's dashboard
 * shows, and the list of available volunteers.
 *
 * As in the emergency service, a failed request is the `storeOk` argument
 * and comes back as `Err`.
 */
module UserService {
  import opened Common
  import opened SeqUtil
  import opened Sorting
  import ES = EmergencyService

  /** One row of `user_profiles`, with the columns the service reads or writes. */
  datatype Profile = Profile(
    id: string,
    fullName: string,
    role: string,
    isActive: bool,
    volunteerStatus: Option<string>,
    latitude: Option<int>,
    longitude: Option<int>,
    address: Option<string>)

  /** An update record for a profile: named columns (`Some`) are written. */
  datatype ProfilePatch = ProfilePatch(
    fullName: Option<string>,
    volunteerStatus: Option<string>,
    latitude: Option<int>,
    longitude: Option<int>,
    address: Option<string>)

  const NoChange := ProfilePatch(None, None, None, None, None)

  function ApplyProfilePatch(p: Profile, u: ProfilePatch): (r: Profile)
    ensures r.id == p.id && r.role == p.role && r.isActive == p.isActive
    ensures r.fullName == u.fullName.GetOr(p.fullName)
    ensures r.volunteerStatus == (if u.volunteerStatus.Some? then u.volunteerStatus else p.volunteerStatus)
    ensures r.latitude == (if u.latitude.Some? then u.latitude else p.latitude)
    ensures r.longitude == (if u.longitude.Some? then u.longitude else p.longitude)
    ensures r.address == (if u.address.Some? then u.address else p.address)
  {
    p.(fullName := u.fullName.GetOr(p.fullName),
       volunteerStatus := if u.volunteerStatus.Some? then u.volunteerStatus else p.volunteerStatus,
       latitude := if u.latitude.Some? then u.latitude else p.latitude,
       longitude := if u.longitude.Some? then u.longitude else p.longitude,
       address := if u.address.Some? then u.address else p.address)
  }

  /** `.update(u).eq('id', userId)`. */
  function UpdateProfiles(rows: seq<Profile>, userId: string, u: ProfilePatch): (r: seq<Profile>)
    ensures |r| == |rows|
    ensures forall i | 0 <= i < |rows| :: r[i] == if rows[i].id == userId then ApplyProfilePatch(rows[i], u) else rows[i]
  {
    if rows == [] then []
    else [if rows[0].id == userId then ApplyProfilePatch(rows[0], u) else rows[0]] + UpdateProfiles(rows[1..], userId, u)
  }

  predicate HasProfile(rows: seq<Profile>, userId: string) {
    exists i | 0 <= i < |rows| :: rows[i].id == userId
  }

  function ProfileIndex(rows: seq<Profile>, userId: string): (i: nat)
    requires HasProfile(rows, userId)
    ensures i < |rows| && rows[i].id == userId
    ensures forall j | 0 <= j < i :: rows[j].id != userId
  {
    if rows[0].id == userId then 0 else ProfileIndex(rows[1..], userId) + 1
  }

  /**
   * The update record updateLocation builds: both coordinates always, the
   * address only when a truthy one is given.
   */
  method LocationUpdates(latitude: int, longitude: int, address: Option<string>) returns (u: ProfilePatch)
    ensures u.latitude == Some(latitude) && u.longitude == Some(longitude)
    ensures address.Some? && address.value != "" ==> u.address == address
    ensures address.None? || address.value == "" ==> u.address.None?
    ensures u.fullName.None? && u.volunteerStatus.None?
  {
    u := NoChange.(latitude := Some(latitude), longitude := Some(longitude));
    if address.Some? && address.value != "" {
      u := u.(address := address);
    }
  }

  class ProfileTable {
    var profiles: seq<Profile>

    constructor (initial: seq<Profile>)
      ensures profiles == initial
    {
      profiles := initial;
    }

    /** getUserProfile: the row with that id, or an error when there is none (`.single()`). */
    function GetUserProfile(userId: string, storeOk: bool): (r: Result<Profile, ES.StoreError>)
      reads this
      ensures r.Ok? <==> storeOk && HasProfile(profiles, userId)
      ensures r.Ok? ==> r.data in profiles && r.data.id == userId
    {
      if !storeOk then Err(ES.RequestFailed)
      else if !HasProfile(profiles, userId) then Err(ES.NoSingleRow)
      else Ok(profiles[ProfileIndex(profiles, userId)])
    }

    /** Writes `u` into the user's row; a failed request or a missing row changes nothing. */
    method UpdateUserProfile(userId: string, u: ProfilePatch, storeOk: bool) returns (res: Result<Profile, ES.StoreError>)
      modifies this
      ensures !storeOk || !HasProfile(old(profiles), userId) ==> res.Err? && profiles == old(profiles)
      ensures storeOk && HasProfile(old(profiles), userId) ==>
                profiles == UpdateProfiles(old(profiles), userId, u)
                && res == Ok(profiles[ProfileIndex(old(profiles), userId)])
    {
      if !storeOk {
        return Err(ES.RequestFailed);
      }
      if !HasProfile(profiles, userId) {
        return Err(ES.NoSingleRow);
      }
      var i := ProfileIndex(profiles, userId);
      profiles := UpdateProfiles(profiles, userId, u);
      return Ok(profiles[i]);
    }

    /** updateVolunteerStatus: only `volunteer_status` of the matching row changes. */
    method UpdateVolunteerStatus(userId: string, status: string, storeOk: bool) returns (res: Result<Profile, ES.StoreError>)
      modifies this
      ensures |profiles| == |old(profiles)|
      ensures forall i | 0 <= i < |profiles| ::
                profiles[i] == if storeOk && old(profiles)[i].id == userId
                               then old(profiles)[i].(volunteerStatus := Some(status)) else old(profiles)[i]
      ensures res.Ok? <==> storeOk && HasProfile(old(profiles), userId)
    {
      res := UpdateUserProfile(userId, NoChange.(volunteerStatus := Some(status)), storeOk);
    }

    /** updateLocation: both coordinates always; the address only when a truthy one is passed. */
    method UpdateLocation(userId: string, latitude: int, longitude: int, address: Option<string>, storeOk: bool)
      returns (res: Result<Profile, ES.StoreError>)
      modifies this
      ensures |profiles| == |old(profiles)|
      ensures forall i | 0 <= i < |profiles| && !(storeOk && old(profiles)[i].id == userId) :: profiles[i] == old(profiles)[i]
      ensures forall i | 0 <= i < |profiles| && storeOk && old(profiles)[i].id == userId ::
                var was := old(profiles)[i];
                profiles[i] == was.(latitude := Some(latitude), longitude := Some(longitude),
                                    address := if address.Some? && address.value != "" then address else was.address)
      ensures res.Ok? <==> storeOk && HasProfile(old(profiles), userId)
    {
      var u := LocationUpdates(latitude, longitude, address);
      res := UpdateUserProfile(userId, u, storeOk);
    }

    /** getAvailableVolunteers against the current rows. */
    function GetAvailableVolunteers(storeOk: bool): (r: Result<seq<Profile>, ES.StoreError>)
      reads this
      ensures r.Ok? <==> storeOk
      ensures r.Ok? ==> forall p | p in r.data :: p in profiles && p.role == "volunteer" && p.isActive
      ensures r.Ok? ==> r.data == AvailableVolunteers(profiles)
    {
      if storeOk then Ok(AvailableVolunteers(profiles)) else Err(ES.RequestFailed)
    }
  }

  predicate IsAvailableVolunteer(p: Profile) {
    p.role == "volunteer" && p.isActive
  }

  function ByFullName(p: Profile): SortKey {
    TextKey(p.fullName)
  }

  /** `.eq('role', 'volunteer').eq('is_active', true).order('full_name')`. */
  function AvailableVolunteers(rows: seq<Profile>): (r: seq<Profile>)
    ensures forall p :: p in r <==> p in rows && IsAvailableVolunteer(p)
    ensures forall i, j | 0 <= i <= j < |r| :: LexLeq(r[i].fullName, r[j].fullName)
    ensures forall p :: multiset(r)[p] == if IsAvailableVolunteer(p) then multiset(rows)[p] else 0
  {
    var kept := Filter(rows, IsAvailableVolunteer);
    var sorted := Sort(kept, ByFullName);
    FilterMembershipAll(rows, IsAvailableVolunteer);
    SortMembership(kept, ByFullName);
    SortedAll(sorted, ByFullName);
    FilterCount(rows, IsAvailableVolunteer);
    sorted
  }

  // ---------------------------------------------------------------
  // getUserStats
  // ---------------------------------------------------------------

  /**
   * averageRating: 0 unless some completed response carries a truthy rating
   * and the ratings do not sum to 0; otherwise the quotient sum / count,
   * kept as the pair because the division is floating point.
   */
  datatype AverageRating = NoAverage | Ratio(sum: int, count: nat)

  datatype UserStats =
    | VictimStats(totalAlerts: nat, pendingAlerts: nat, resolvedAlerts: nat, inProgressAlerts: nat)
    | VolunteerStats(totalResponses: nat, acceptedResponses: nat, completedResponses: nat, averageRating: AverageRating)
    | EmptyStats

  function CountStatus(rows: seq<ES.AlertRow>, status: string): (n: nat)
    ensures n <= |rows|
  {
    if rows == [] then 0 else (if rows[0].status == status then 1 else 0) + CountStatus(rows[1..], status)
  }

  /** The status of the alert a response points to (the `alert:emergency_alerts!alert_id (status)` join). */
  function AlertStatusOf(alerts: seq<ES.AlertRow>, alertId: Option<nat>): Option<string> {
    if alertId.Some? && ES.HasAlert(alerts, alertId.value) then Some(alerts[ES.AlertIndex(alerts, alertId.value)].status)
    else None
  }

  /** `r?.rating || 0`. */
  function RatingOrZero(r: ES.ResponseRow): int {
    IntOr(r.rating, 0)
  }

  function SumRatings(rs: seq<ES.ResponseRow>): int {
    if rs == [] then 0 else RatingOrZero(rs[0]) + SumRatings(rs[1..])
  }

  function CountRated(rs: seq<ES.ResponseRow>): (n: nat)
    ensures n <= |rs|
  {
    if rs == [] then 0 else (if TruthyInt(rs[0].rating) then 1 else 0) + CountRated(rs[1..])
  }

  /** Responses with no truthy rating add nothing to the sum. */
  lemma {:induction false} UnratedSumZero(rs: seq<ES.ResponseRow>)
    requires CountRated(rs) == 0
    ensures SumRatings(rs) == 0
  {
    if rs != [] {
      UnratedSumZero(rs[1..]);
    }
  }

  function AverageOf(completed: seq<ES.ResponseRow>): (a: AverageRating)
    ensures a.Ratio? ==> a.count == CountRated(completed) && a.count > 0 && a.sum == SumRatings(completed) && a.sum != 0
    ensures a.NoAverage? ==> completed == [] || CountRated(completed) == 0 || SumRatings(completed) == 0
  {
    if |completed| > 0 && CountRated(completed) > 0 && SumRatings(completed) != 0 then
      Ratio(SumRatings(completed), CountRated(completed))
    else NoAverage
  }

  /** The alerts of victim `userId`, counted all together or only those with the given status. */
  function VictimAlertCount(alerts: seq<ES.AlertRow>, userId: string, status: Option<string>): (n: nat)
    ensures n <= |alerts|
  {
    if alerts == [] then 0
    else (if alerts[0].victimId == Some(userId) && (status.None? || alerts[0].status == status.value) then 1 else 0)
         + VictimAlertCount(alerts[1..], userId, status)
  }

  /** The responses of volunteer `volunteerId`, counted all together or only the accepted ones. */
  function ResponseCount(responses: seq<ES.ResponseRow>, volunteerId: string, acceptedOnly: bool): (n: nat)
    ensures n <= |responses|
  {
    if responses == [] then 0
    else (if responses[0].volunteerId == Some(volunteerId) && (!acceptedOnly || responses[0].isAccepted) then 1 else 0)
         + ResponseCount(responses[1..], volunteerId, acceptedOnly)
  }

  /** A completed response: the volunteer's own, accepted, for an alert that is now resolved. */
  predicate Completed(alerts: seq<ES.AlertRow>, volunteerId: string, x: ES.ResponseRow) {
    x.volunteerId == Some(volunteerId) && x.isAccepted && AlertStatusOf(alerts, x.alertId) == Some("resolved")
  }

  /** The completed responses of `volunteerId`, in the order the rows come back. */
  function CompletedBy(alerts: seq<ES.AlertRow>, responses: seq<ES.ResponseRow>, volunteerId: string): (r: seq<ES.ResponseRow>)
    ensures |r| <= ResponseCount(responses, volunteerId, true)
    ensures forall i | 0 <= i < |r| :: r[i] in responses && Completed(alerts, volunteerId, r[i])
  {
    if responses == [] then []
    else (if Completed(alerts, volunteerId, responses[0]) then [responses[0]] else [])
         + CompletedBy(alerts, responses[1..], volunteerId)
  }

  /**
   * getUserStats: counts by status for a victim, counts of accepted and
   * completed responses and the average rating for a volunteer, and an
   * empty record for any other role (which makes no request at all).
   */
  function GetUserStats(userId: string, role: string, alerts: seq<ES.AlertRow>, responses: seq<ES.ResponseRow>, storeOk: bool)
    : (r: Result<UserStats, ES.StoreError>)
    ensures role != "victim" && role != "volunteer" ==> r == Ok(EmptyStats)
    ensures (role == "victim" || role == "volunteer") && !storeOk ==> r.Err?
    ensures role == "victim" && storeOk ==>
      r == Ok(VictimStats(VictimAlertCount(alerts, userId, None), VictimAlertCount(alerts, userId, Some("pending")),
                          VictimAlertCount(alerts, userId, Some("resolved")), VictimAlertCount(alerts, userId, Some("in_progress"))))
    ensures role == "volunteer" && storeOk ==>
      r == Ok(VolunteerStats(ResponseCount(responses, userId, false), ResponseCount(responses, userId, true),
                             |CompletedBy(alerts, responses, userId)|, AverageOf(CompletedBy(alerts, responses, userId))))
  {
    if role == "victim" then
      if !storeOk then Err(ES.RequestFailed)
      else
        var own := (a: ES.AlertRow) => a.victimId == Some(userId);
        var mine := Filter(alerts, own);
        OwnAlertsCounted(alerts, userId, own, None);
        OwnAlertsCounted(alerts, userId, own, Some("pending"));
        OwnAlertsCounted(alerts, userId, own, Some("resolved"));
        OwnAlertsCounted(alerts, userId, own, Some("in_progress"));
        Ok(VictimStats(|mine|, CountStatus(mine, "pending"), CountStatus(mine, "resolved"), CountStatus(mine, "in_progress")))
    else if role == "volunteer" then
      if !storeOk then Err(ES.RequestFailed)
      else
        var own := (x: ES.ResponseRow) => x.volunteerId == Some(userId);
        var isAccepted := (x: ES.ResponseRow) => x.isAccepted;
        var resolved := (x: ES.ResponseRow) => AlertStatusOf(alerts, x.alertId) == Some("resolved");
        var mine := Filter(responses, own);
        var accepted := Filter(mine, isAccepted);
        var completed := Filter(accepted, resolved);
        OwnResponsesCounted(alerts, responses, userId, own, isAccepted, resolved);
        Ok(VolunteerStats(|mine|, |accepted|, |completed|, AverageOf(completed)))
    else Ok(EmptyStats)
  }

  /** Filtering a victim's alerts and then counting a status is counting both tests in one pass. */
  lemma {:induction false} OwnAlertsCounted(alerts: seq<ES.AlertRow>, userId: string, own: ES.AlertRow -> bool, status: Option<string>)
    requires forall a :: own(a) == (a.victimId == Some(userId))
    ensures status.None? ==> |Filter(alerts, own)| == VictimAlertCount(alerts, userId, status)
    ensures status.Some? ==> CountStatus(Filter(alerts, own), status.value) == VictimAlertCount(alerts, userId, status)
  {
    if alerts != [] {
      OwnAlertsCounted(alerts[1..], userId, own, status);
    }
  }

  /** The three chained filters of getUserStats count and keep what the one-pass definitions do. */
  lemma {:induction false} OwnResponsesCounted(alerts: seq<ES.AlertRow>, responses: seq<ES.ResponseRow>, volunteerId: string,
                                               own: ES.ResponseRow -> bool, isAccepted: ES.ResponseRow -> bool,
                                               resolved: ES.ResponseRow -> bool)
    requires forall x :: own(x) == (x.volunteerId == Some(volunteerId))
    requires forall x :: isAccepted(x) == x.isAccepted
    requires forall x :: resolved(x) == (AlertStatusOf(alerts, x.alertId) == Some("resolved"))
    ensures |Filter(responses, own)| == ResponseCount(responses, volunteerId, false)
    ensures |Filter(Filter(responses, own), isAccepted)| == ResponseCount(responses, volunteerId, true)
    ensures Filter(Filter(Filter(responses, own), isAccepted), resolved) == CompletedBy(alerts, responses, volunteerId)
  {
    if responses != [] {
      OwnResponsesCounted(alerts, responses[1..], volunteerId, own, isAccepted, resolved);
    }
  }

  /** Three distinct statuses are counted separately, so their counts add up to at most the total. */
  lemma {:induction false} StatusCountsBounded(alerts: seq<ES.AlertRow>, userId: string)
    ensures VictimAlertCount(alerts, userId, Some("pending")) + VictimAlertCount(alerts, userId, Some("resolved"))
            + VictimAlertCount(alerts, userId, Some("in_progress")) <= VictimAlertCount(alerts, userId, None)
  {
    if alerts != [] {
      StatusCountsBounded(alerts[1..], userId);
    }
  }

  /** Victim statistics: the three status counts never exceed the number of alerts. */
  lemma VictimCountsBounded(userId: string, alerts: seq<ES.AlertRow>, responses: seq<ES.ResponseRow>)
    ensures var r := GetUserStats(userId, "victim", alerts, responses, true);
      r.Ok? && r.data.VictimStats? && r.data.pendingAlerts + r.data.resolvedAlerts + r.data.inProgressAlerts <= r.data.totalAlerts
  {
    StatusCountsBounded(alerts, userId);
  }

  /** Accepted responses are a share of all the volunteer's responses. */
  lemma {:induction false} AcceptedWithinTotal(responses: seq<ES.ResponseRow>, volunteerId: string)
    ensures ResponseCount(responses, volunteerId, true) <= ResponseCount(responses, volunteerId, false)
  {
    if responses != [] {
      AcceptedWithinTotal(responses[1..], volunteerId);
    }
  }

  /** Volunteer statistics: completed ≤ accepted ≤ total, and no completed response means no average. */
  lemma VolunteerCountsOrdered(userId: string, alerts: seq<ES.AlertRow>, responses: seq<ES.ResponseRow>)
    ensures var r := GetUserStats(userId, "volunteer", alerts, responses, true);
      r.Ok? && r.data.VolunteerStats?
      && r.data.completedResponses <= r.data.acceptedResponses <= r.data.totalResponses
      && (r.data.completedResponses == 0 ==> r.data.averageRating.NoAverage?)
  {
    AcceptedWithinTotal(responses, userId);
  }

  /** Only completed responses with a truthy rating can produce an average. */
  lemma AverageNeedsRating(completed: seq<ES.ResponseRow>)
    requires forall i | 0 <= i < |completed| :: !TruthyInt(completed[i].rating)
    ensures AverageOf(completed).NoAverage?
  {
    AllUnrated(completed);
  }

  lemma {:induction false} AllUnrated(rs: seq<ES.ResponseRow>)
    requires forall i | 0 <= i < |rs| :: !TruthyInt(rs[i].rating)
    ensures CountRated(rs) == 0
  {
    if rs != [] {
      AllUnrated(rs[1..]);
    }
  }
}
