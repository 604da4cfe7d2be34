/**
 * The alert-history page (src/pages/alert-history/index.jsx): the search
 * and filter predicate, the sort selected by `sortBy`, the ten-per-page
 * slicing, and the page state its handlers update.
 *
 * Timestamps are milliseconds. Distances are tenths of a metre so that
 * `Math.round` stays exact. The calendar questions the date filter asks of
 * `Date` (same day, same year, local midnight some months back) and the
 * parsing of the custom range's date strings are the fields of
 * `CalendarEnv`.
 */
module AlertHistory {
  import opened Common
  import opened JsText
  import opened SeqUtil
  import opened Sorting
  import opened FilterControls

  datatype Responder = Responder(name: string, arrivalTime: int, rating: int)

  /** One entry of the history list, with the fields the page and its card read. */
  datatype HistoryAlert = HistoryAlert(
    id: string,
    alertType: string,
    urgency: string,
    status: string,
    timestamp: int,
    location: string,
    distance: Option<int>,
    responseTime: Option<int>,
    respondersCount: Option<int>,
    description: string,
    responders: seq<Responder>,
    communicationCount: nat,
    hasVictimInfo: bool,
    myResponseTime: Option<int>,
    feedback: string)

  /**
   * What the date filter learns from `Date`: the current time, the calendar
   * day and year of an instant, the local midnight `k` months before today,
   * and `new Date(text)` for the custom range (`None` for an invalid date,
   * against which every comparison is false).
   */
  datatype CalendarEnv = CalendarEnv(
    now: int,
    dayOf: int -> int,
    yearOf: int -> int,
    monthsAgo: nat -> int,
    parseDate: string -> Option<int>)

  const WeekMs := 7 * 24 * 60 * 60 * 1000

  /** The lower-cased query occurs in the lower-cased location, description, id or type. */
  predicate MatchesSearch(a: HistoryAlert, query: string) {
    var q := ToLower(query);
    Includes(ToLower(a.location), q) || Includes(ToLower(a.description), q)
    || Includes(ToLower(a.id), q) || Includes(ToLower(a.alertType), q)
  }

  /** The `dateRange` switch; an unknown range keeps everything. */
  predicate InDateRange(a: HistoryAlert, f: Filters, env: CalendarEnv) {
    var t := a.timestamp;
    match f.dateRange
    case "today" => env.dayOf(t) == env.dayOf(env.now)
    case "week" => t >= env.now - WeekMs
    case "month" => t >= env.monthsAgo(1)
    case "quarter" => t >= env.monthsAgo(3)
    case "year" => env.yearOf(t) == env.yearOf(env.now)
    case "custom" =>
      (f.startDate == "" || env.parseDate(f.startDate).None? || t >= env.parseDate(f.startDate).value)
      && (f.endDate == "" || env.parseDate(f.endDate).None? || t <= env.parseDate(f.endDate).value)
    case _ => true
  }

  /** The type, status, urgency and date-range checks. */
  predicate SelectsPass(a: HistoryAlert, f: Filters, env: CalendarEnv) {
    (f.typeFilter == "all" || a.alertType == f.typeFilter)
    && (f.status == "all" || a.status == f.status)
    && (f.urgency == "all" || a.urgency == f.urgency)
    && (f.dateRange == "all" || InDateRange(a, f, env))
  }

  /** The predicate passed to `filter`: the search applies only to a non-empty query. */
  predicate Keep(a: HistoryAlert, query: string, f: Filters, env: CalendarEnv) {
    (query == "" || MatchesSearch(a, query)) && SelectsPass(a, f, env)
  }

  function FilteredAlerts(alerts: seq<HistoryAlert>, query: string, f: Filters, env: CalendarEnv): (r: seq<HistoryAlert>)
    ensures |r| <= |alerts|
    ensures forall i | 0 <= i < |r| :: Keep(r[i], query, f, env)
  {
    Filter(alerts, (a: HistoryAlert) => Keep(a, query, f, env))
  }

  /** The filtered list keeps the input order, and holds exactly the alerts that pass. */
  lemma FilteredIsSubsequence(alerts: seq<HistoryAlert>, query: string, f: Filters, env: CalendarEnv)
    ensures IsSubsequence(FilteredAlerts(alerts, query, f, env), alerts)
    ensures forall a :: a in FilteredAlerts(alerts, query, f, env) <==> a in alerts && Keep(a, query, f, env)
  {
    FilterIsSubsequence(alerts, (a: HistoryAlert) => Keep(a, query, f, env));
    FilterMembershipAll(alerts, (a: HistoryAlert) => Keep(a, query, f, env));
  }

  /** Every kept alert agrees with each select that is not at 'all', and contains a non-empty query. */
  lemma FilteredMatchesSelects(alerts: seq<HistoryAlert>, query: string, f: Filters, env: CalendarEnv)
    ensures forall a | a in FilteredAlerts(alerts, query, f, env) ::
              (f.typeFilter != "all" ==> a.alertType == f.typeFilter)
              && (f.status != "all" ==> a.status == f.status)
              && (f.urgency != "all" ==> a.urgency == f.urgency)
              && (query != "" ==> MatchesSearch(a, query))
  {
  }

  /** An empty query with every select at 'all' removes nothing. */
  lemma NoFiltersKeepsAll(alerts: seq<HistoryAlert>, f: Filters, env: CalendarEnv)
    requires f.typeFilter == "all" && f.status == "all" && f.urgency == "all" && f.dateRange == "all"
    ensures FilteredAlerts(alerts, "", f, env) == alerts
  {
    FilterAll(alerts, (a: HistoryAlert) => Keep(a, "", f, env));
  }

  /** An empty query is no restriction, and a non-empty one keeps exactly the matching alerts the selects pass. */
  lemma SearchEffect(alerts: seq<HistoryAlert>, query: string, f: Filters, env: CalendarEnv)
    ensures query == "" ==> forall a :: a in FilteredAlerts(alerts, query, f, env) <==> a in alerts && SelectsPass(a, f, env)
    ensures query != "" ==> forall a :: a in FilteredAlerts(alerts, query, f, env) <==>
              a in alerts && MatchesSearch(a, query) && SelectsPass(a, f, env)
  {
    FilteredIsSubsequence(alerts, query, f, env);
  }

  /** 'week' keeps exactly the alerts of the last seven days (with the other filters off). */
  lemma WeekWindow(alerts: seq<HistoryAlert>, f: Filters, env: CalendarEnv)
    requires f.typeFilter == "all" && f.status == "all" && f.urgency == "all" && f.dateRange == "week"
    ensures forall a :: a in FilteredAlerts(alerts, "", f, env) <==> a in alerts && a.timestamp >= env.now - WeekMs
  {
    FilteredIsSubsequence(alerts, "", f, env);
  }

  /** 'custom' keeps the alerts between the parsed bounds; an empty or unparsable bound is no bound. */
  lemma CustomWindow(alerts: seq<HistoryAlert>, f: Filters, env: CalendarEnv)
    requires f.typeFilter == "all" && f.status == "all" && f.urgency == "all" && f.dateRange == "custom"
    ensures forall a :: a in FilteredAlerts(alerts, "", f, env) <==>
      a in alerts
      && (f.startDate != "" && env.parseDate(f.startDate).Some? ==> a.timestamp >= env.parseDate(f.startDate).value)
      && (f.endDate != "" && env.parseDate(f.endDate).Some? ==> a.timestamp <= env.parseDate(f.endDate).value)
  {
    FilteredIsSubsequence(alerts, "", f, env);
  }

  // ---------------------------------------------------------------
  // Sorting
  // ---------------------------------------------------------------

  /** `{ critical: 4, high: 3, medium: 2, low: 1 }`; any other urgency ranks below low. */
  function UrgencyRank(u: string): int {
    match u
    case "critical" => 4
    case "high" => 3
    case "medium" => 2
    case "low" => 1
    case _ => 0
  }

  /** The key each comparator of the `sortBy` switch orders by; the default comparator answers 0 for every pair. */
  function SortKeyOf(sortBy: string): HistoryAlert -> SortKey {
    match sortBy
    case "newest" => (a: HistoryAlert) => IntKey(-a.timestamp)
    case "oldest" => (a: HistoryAlert) => IntKey(a.timestamp)
    case "urgency" => (a: HistoryAlert) => IntKey(-UrgencyRank(a.urgency))
    case "distance" => (a: HistoryAlert) => IntKey(IntOr(a.distance, 0))
    case "status" => (a: HistoryAlert) => TextKey(a.status)
    case _ => (a: HistoryAlert) => IntKey(0)
  }

  /** `[...filteredAlerts].sort(comparator)`: a permutation of the filtered list. */
  function SortedAlerts(filtered: seq<HistoryAlert>, sortBy: string): (r: seq<HistoryAlert>)
    ensures multiset(r) == multiset(filtered)
  {
    Sort(filtered, SortKeyOf(sortBy))
  }

  /** Each sort option orders the list as its label says. */
  lemma SortedAlertsOrder(filtered: seq<HistoryAlert>, sortBy: string)
    ensures var r := SortedAlerts(filtered, sortBy);
      forall i, j | 0 <= i <= j < |r| ::
        (sortBy == "newest" ==> r[i].timestamp >= r[j].timestamp)
        && (sortBy == "oldest" ==> r[i].timestamp <= r[j].timestamp)
        && (sortBy == "urgency" ==> UrgencyRank(r[i].urgency) >= UrgencyRank(r[j].urgency))
        && (sortBy == "distance" ==> IntOr(r[i].distance, 0) <= IntOr(r[j].distance, 0))
        && (sortBy == "status" ==> LexLeq(r[i].status, r[j].status))
  {
    SortedAll(SortedAlerts(filtered, sortBy), SortKeyOf(sortBy));
  }

  /** Alerts that tie under the chosen key keep their filtered order. */
  lemma SortedAlertsStable(filtered: seq<HistoryAlert>, sortBy: string, k: SortKey)
    ensures WithKey(SortedAlerts(filtered, sortBy), SortKeyOf(sortBy), k) == WithKey(filtered, SortKeyOf(sortBy), k)
  {
    SortStable(filtered, SortKeyOf(sortBy), k);
  }

  /** A `sortBy` outside the five options leaves the filtered order as it is. */
  lemma UnknownSortKeepsOrder(filtered: seq<HistoryAlert>, sortBy: string)
    requires sortBy !in {"newest", "oldest", "urgency", "distance", "status"}
    ensures SortedAlerts(filtered, sortBy) == filtered
  {
    SortConstantKey(filtered, SortKeyOf(sortBy), IntKey(0));
  }

  // ---------------------------------------------------------------
  // Pagination
  // ---------------------------------------------------------------

  const ItemsPerPage := 10

  /** `Math.ceil(n / 10)`. */
  function TotalPages(n: nat): (t: nat)
    ensures n <= t * ItemsPerPage
    ensures t == 0 || (t - 1) * ItemsPerPage < n
  {
    (n + ItemsPerPage - 1) / ItemsPerPage
  }

  /** `slice((p - 1) * 10, p * 10)`. */
  function Page(s: seq<HistoryAlert>, p: int): seq<HistoryAlert> {
    JsSlice(s, (p - 1) * ItemsPerPage, p * ItemsPerPage)
  }

  function Min(a: int, b: int): int { if a < b then a else b }

  /** Page `p` holds the items from `(p - 1) * 10` up to `p * 10`, cut at the end of the list. */
  lemma PageContents(s: seq<HistoryAlert>, p: int)
    requires p >= 1
    ensures var lo, hi := Min((p - 1) * ItemsPerPage, |s|), Min(p * ItemsPerPage, |s|);
      Page(s, p) == s[lo..hi] && |Page(s, p)| <= ItemsPerPage
  {
  }

  /** Pages 1 to `k`, one after the other. */
  function PagesUpTo(s: seq<HistoryAlert>, k: nat): seq<HistoryAlert> {
    if k == 0 then [] else PagesUpTo(s, k - 1) + Page(s, k)
  }

  lemma {:induction false} PagesUpToPrefix(s: seq<HistoryAlert>, k: nat)
    ensures PagesUpTo(s, k) == s[..Min(k * ItemsPerPage, |s|)]
  {
    if k > 0 {
      PagesUpToPrefix(s, k - 1);
      PageContents(s, k);
    }
  }

  /** The pages together are the sorted list, each item on exactly one page. */
  lemma PagesCoverList(s: seq<HistoryAlert>)
    ensures PagesUpTo(s, TotalPages(|s|)) == s
  {
    PagesUpToPrefix(s, TotalPages(|s|));
  }

  // ---------------------------------------------------------------
  // Page state
  // ---------------------------------------------------------------

  class AlertHistoryPage {
    /** The page's fixed alert list. */
    const alerts: seq<HistoryAlert>
    var userRole: string
    var searchQuery: string
    var currentPage: int
    var sortBy: string
    var filters: Filters

    predicate Valid()
      reads this
    {
      currentPage >= 1
    }

    constructor (alerts: seq<HistoryAlert>)
      ensures Valid()
      ensures this.alerts == alerts && userRole == "victim" && searchQuery == "" && currentPage == 1
      ensures sortBy == "newest" && filters == Cleared
    {
      this.alerts := alerts;
      userRole := "victim";
      searchQuery := "";
      currentPage := 1;
      sortBy := "newest";
      filters := Cleared;
    }

    /** The filtered, sorted list. */
    function Listed(env: CalendarEnv): seq<HistoryAlert>
      reads this
    {
      SortedAlerts(FilteredAlerts(alerts, searchQuery, filters, env), sortBy)
    }

    function PageCount(env: CalendarEnv): nat
      reads this
    {
      TotalPages(|Listed(env)|)
    }

    /** The alerts on the current page. */
    function Shown(env: CalendarEnv): (r: seq<HistoryAlert>)
      reads this
      requires Valid()
      ensures |r| <= ItemsPerPage
      ensures multiset(r) <= multiset(alerts)
    {
      var listed := Listed(env);
      PageContents(listed, currentPage);
      var q, f := searchQuery, filters;
      FilterMultiset(alerts, (a: HistoryAlert) => Keep(a, q, f, env));
      SliceMultiset(listed, Min((currentPage - 1) * ItemsPerPage, |listed|), Min(currentPage * ItemsPerPage, |listed|));
      Page(listed, currentPage)
    }

    method HandleSearch(query: string)
      modifies this
      ensures searchQuery == query && currentPage == 1 && Valid()
      ensures filters == old(filters) && sortBy == old(sortBy) && userRole == old(userRole)
    {
      searchQuery := query;
      currentPage := 1;
    }

    method HandleFiltersChange(newFilters: Filters)
      modifies this
      ensures filters == newFilters && currentPage == 1 && Valid()
      ensures searchQuery == old(searchQuery) && sortBy == old(sortBy) && userRole == old(userRole)
    {
      filters := newFilters;
      currentPage := 1;
    }

    method HandleClearFilters()
      modifies this
      ensures filters == Cleared && searchQuery == "" && currentPage == 1 && Valid()
      ensures sortBy == old(sortBy) && userRole == old(userRole)
    {
      filters := Cleared;
      searchQuery := "";
      currentPage := 1;
    }

    method HandleRoleSwitch()
      modifies this
      ensures userRole == if old(userRole) == "victim" then "volunteer" else "victim"
      ensures searchQuery == old(searchQuery) && currentPage == old(currentPage) && sortBy == old(sortBy)
      ensures filters == old(filters)
    {
      userRole := if userRole == "victim" then "volunteer" else "victim";
    }

    method SetSortBy(value: string)
      modifies this
      ensures sortBy == value
      ensures searchQuery == old(searchQuery) && currentPage == old(currentPage) && filters == old(filters)
      ensures userRole == old(userRole)
    {
      sortBy := value;
    }

    /** Previous: `Math.max(1, currentPage - 1)`; the page never drops below 1. */
    method PreviousPage()
      requires Valid()
      modifies this
      ensures Valid()
      ensures currentPage == if old(currentPage) > 1 then old(currentPage) - 1 else 1
      ensures searchQuery == old(searchQuery) && sortBy == old(sortBy) && filters == old(filters)
      ensures userRole == old(userRole)
    {
      currentPage := if currentPage - 1 > 1 then currentPage - 1 else 1;
    }

    /**
     * Next: `Math.min(totalPages, currentPage + 1)`. The control exists only
     * while there is more than one page.
     */
    method NextPage(env: CalendarEnv)
      requires Valid()
      modifies this
      ensures Valid()
      ensures old(PageCount(env)) > 1 ==>
                currentPage == if old(currentPage) + 1 < old(PageCount(env)) then old(currentPage) + 1 else old(PageCount(env))
      ensures old(PageCount(env)) <= 1 ==> currentPage == old(currentPage)
      ensures old(currentPage) <= old(PageCount(env)) ==> currentPage <= old(PageCount(env))
      ensures searchQuery == old(searchQuery) && sortBy == old(sortBy) && filters == old(filters)
      ensures userRole == old(userRole)
    {
      var total := PageCount(env);
      if total > 1 {
        currentPage := if total < currentPage + 1 then total else currentPage + 1;
      }
    }

    /** The numbered buttons: pages 1 to min(5, totalPages), and the last page when there are more than five. */
    method GoToPage(env: CalendarEnv, page: int)
      requires Valid()
      modifies this
      ensures Valid()
      ensures var total := old(PageCount(env));
        var offered := total > 1 && ((1 <= page <= Min(5, total)) || (total > 5 && page == total));
        currentPage == if offered then page else old(currentPage)
      ensures searchQuery == old(searchQuery) && sortBy == old(sortBy) && filters == old(filters)
      ensures userRole == old(userRole)
    {
      var total := PageCount(env);
      if total > 1 && ((1 <= page <= Min(5, total)) || (total > 5 && page == total)) {
        currentPage := page;
      }
    }
  }

  lemma SliceMultiset(s: seq<HistoryAlert>, lo: int, hi: int)
    requires 0 <= lo <= hi <= |s|
    ensures multiset(s[lo..hi]) <= multiset(s)
  {
    assert s == s[..lo] + s[lo..hi] + s[hi..];
  }
}
