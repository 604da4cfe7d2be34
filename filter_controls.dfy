/**
 * The alert-history filter bar (src/pages/alert-history/components/FilterControls.jsx):
 * the filters record, the change it emits for one select, whether any
 * filter is active, and the chips listing the active ones.
 */
module FilterControls {
  import opened Lookup
  import opened SeqUtil

  /** The filters record, in the key order the page creates it with. */
  datatype Filters = Filters(
    typeFilter: string,
    status: string,
    urgency: string,
    dateRange: string,
    startDate: string,
    endDate: string)

  datatype FilterKey = TypeKey | StatusKey | UrgencyKey | DateRangeKey | StartDateKey | EndDateKey

  /** `Object.entries(filters)` order. */
  const AllKeys: seq<FilterKey> := [TypeKey, StatusKey, UrgencyKey, DateRangeKey, StartDateKey, EndDateKey]

  /** Every filter at 'all', both dates empty. */
  const Cleared := Filters("all", "all", "all", "all", "", "")

  function Get(f: Filters, k: FilterKey): string {
    match k
    case TypeKey => f.typeFilter
    case StatusKey => f.status
    case UrgencyKey => f.urgency
    case DateRangeKey => f.dateRange
    case StartDateKey => f.startDate
    case EndDateKey => f.endDate
  }

  /** handleFilterChange: `{...filters, [key]: value}`. */
  function WithFilter(f: Filters, k: FilterKey, v: string): (r: Filters)
    ensures Get(r, k) == v
    ensures forall k' | k' != k :: Get(r, k') == Get(f, k')
  {
    match k
    case TypeKey => f.(typeFilter := v)
    case StatusKey => f.(status := v)
    case UrgencyKey => f.(urgency := v)
    case DateRangeKey => f.(dateRange := v)
    case StartDateKey => f.(startDate := v)
    case EndDateKey => f.(endDate := v)
  }

  /** Setting a key to the value it already has emits the same record. */
  lemma WithFilterSame(f: Filters, k: FilterKey)
    ensures WithFilter(f, k, Get(f, k)) == f
  {
  }

  predicate IsActiveValue(v: string) {
    v != "all" && v != ""
  }

  /** `values.some(v => v !== 'all' && v !== '')` over the given keys. */
  function AnyActive(f: Filters, keys: seq<FilterKey>): (b: bool)
    ensures b <==> exists i | 0 <= i < |keys| :: IsActiveValue(Get(f, keys[i]))
  {
    if keys == [] then false
    else IsActiveValue(Get(f, keys[0])) || AnyActive(f, keys[1..])
  }

  function HasActiveFilters(f: Filters): bool {
    AnyActive(f, AllKeys)
  }

  /** Some filter is active exactly when some key holds a value other than 'all' and ''. */
  lemma HasActiveFiltersIff(f: Filters)
    ensures HasActiveFilters(f) <==> exists k: FilterKey :: IsActiveValue(Get(f, k))
  {
    if exists k: FilterKey :: IsActiveValue(Get(f, k)) {
      var k: FilterKey :| IsActiveValue(Get(f, k));
      var i := match k
        case TypeKey => 0 case StatusKey => 1 case UrgencyKey => 2
        case DateRangeKey => 3 case StartDateKey => 4 case EndDateKey => 5;
      assert AllKeys[i] == k;
    }
  }

  /** Clearing leaves nothing active. */
  lemma ClearedInactive()
    ensures !HasActiveFilters(Cleared)
  {
    HasActiveFiltersIff(Cleared);
  }

  datatype Chip = Chip(key: FilterKey, text: string)

  predicate HasChip(chips: seq<Chip>, k: FilterKey) {
    exists i | 0 <= i < |chips| :: chips[i].key == k
  }

  /** The keys of a chip list, in its order. */
  function ChipKeys(chips: seq<Chip>): (r: seq<FilterKey>)
    ensures |r| == |chips| && forall i | 0 <= i < |chips| :: r[i] == chips[i].key
  {
    if chips == [] then [] else [chips[0].key] + ChipKeys(chips[1..])
  }

  /** Every chip belongs to one of the keys, whose value is active, and carries that value's labelOf under `labelOf`. */
  predicate ChipsSound(f: Filters, keys: seq<FilterKey>, chips: seq<Chip>, labelOf: (FilterKey, string) -> string) {
    forall i | 0 <= i < |chips| ::
      chips[i].key in keys && IsActiveValue(Get(f, chips[i].key)) && chips[i].text == labelOf(chips[i].key, Get(f, chips[i].key))
  }

  /** Every key with an active value has a chip. */
  predicate ChipsComplete(f: Filters, keys: seq<FilterKey>, chips: seq<Chip>) {
    forall k | k in keys && IsActiveValue(Get(f, k)) :: HasChip(chips, k)
  }

  /** The chips for the given keys, in order, skipping inactive values. */
  function ChipsFor(f: Filters, keys: seq<FilterKey>): (r: seq<Chip>)
    ensures |r| <= |keys|
    ensures forall i | 0 <= i < |r| ::
              r[i].key in keys && IsActiveValue(Get(f, r[i].key)) && r[i].text == FilterLabel(r[i].key, Get(f, r[i].key))
    ensures forall k | k in keys && IsActiveValue(Get(f, k)) :: HasChip(r, k)
  {
    if keys == [] then []
    else
      var rest := ChipsFor(f, keys[1..]);
      assert ChipsSound(f, keys[1..], rest, FilterLabel) && ChipsComplete(f, keys[1..], rest);
      var r := if IsActiveValue(Get(f, keys[0])) then [Chip(keys[0], FilterLabel(keys[0], Get(f, keys[0])))] + rest else rest;
      ChipsStep(f, keys, rest, r, FilterLabel);
      r
  }

  /** One step of ChipsFor: the first key's chip, if any, in front of the rest keeps the list sound and complete. */
  lemma ChipsStep(f: Filters, keys: seq<FilterKey>, rest: seq<Chip>, r: seq<Chip>, labelOf: (FilterKey, string) -> string)
    requires keys != [] && ChipsSound(f, keys[1..], rest, labelOf) && ChipsComplete(f, keys[1..], rest)
    requires r == if IsActiveValue(Get(f, keys[0])) then [Chip(keys[0], labelOf(keys[0], Get(f, keys[0])))] + rest else rest
    ensures ChipsSound(f, keys, r, labelOf) && ChipsComplete(f, keys, r)
  {
    ChipsStepSound(f, keys, rest, r, labelOf);
    ChipsStepComplete(f, keys, rest, r, labelOf);
  }

  lemma ChipsStepSound(f: Filters, keys: seq<FilterKey>, rest: seq<Chip>, r: seq<Chip>, labelOf: (FilterKey, string) -> string)
    requires keys != [] && ChipsSound(f, keys[1..], rest, labelOf)
    requires r == if IsActiveValue(Get(f, keys[0])) then [Chip(keys[0], labelOf(keys[0], Get(f, keys[0])))] + rest else rest
    ensures ChipsSound(f, keys, r, labelOf)
  {
    forall i | 0 <= i < |r|
      ensures r[i].key in keys && IsActiveValue(Get(f, r[i].key)) && r[i].text == labelOf(r[i].key, Get(f, r[i].key))
    {
      if IsActiveValue(Get(f, keys[0])) && i == 0 {
        assert r[i].key == keys[0];
      } else {
        var j := if IsActiveValue(Get(f, keys[0])) then i - 1 else i;
        assert r[i] == rest[j];
        assert rest[j].key in keys[1..];
        var n :| 0 <= n < |keys[1..]| && keys[1..][n] == rest[j].key;
        assert keys[n + 1] == r[i].key;
      }
    }
  }

  lemma ChipsStepComplete(f: Filters, keys: seq<FilterKey>, rest: seq<Chip>, r: seq<Chip>, labelOf: (FilterKey, string) -> string)
    requires keys != [] && ChipsComplete(f, keys[1..], rest)
    requires r == if IsActiveValue(Get(f, keys[0])) then [Chip(keys[0], labelOf(keys[0], Get(f, keys[0])))] + rest else rest
    ensures ChipsComplete(f, keys, r)
  {
    forall k | k in keys && IsActiveValue(Get(f, k)) ensures HasChip(r, k) {
      if k == keys[0] {
        assert r[0].key == k;
      } else {
        var n :| 0 <= n < |keys| && keys[n] == k;
        assert keys[1..][n - 1] == k;
        var i :| 0 <= i < |rest| && rest[i].key == k;
        if IsActiveValue(Get(f, keys[0])) {
          assert r[i + 1] == rest[i];
        }
      }
    }
  }

  /** The chips come in the order of the keys they were built from. */
  lemma {:induction false} ChipsInKeyOrder(f: Filters, keys: seq<FilterKey>)
    ensures IsSubsequence(ChipKeys(ChipsFor(f, keys)), keys)
  {
    if keys != [] {
      var rest := ChipsFor(f, keys[1..]);
      ChipsInKeyOrder(f, keys[1..]);
      var r := ChipsFor(f, keys);
      if IsActiveValue(Get(f, keys[0])) {
        assert r[1..] == rest;
        assert ChipKeys(r) == [keys[0]] + ChipKeys(rest);
      } else {
        SubsequenceSkip(ChipKeys(rest), keys);
      }
    }
  }

  /** The "Active filters" chip list: one chip per active filter. */
  function Chips(f: Filters): seq<Chip> {
    ChipsFor(f, AllKeys)
  }

  /** A key has a chip exactly when its value is active. */
  lemma ChipsExactlyActive(f: Filters, k: FilterKey)
    ensures HasChip(Chips(f), k) <==> IsActiveValue(Get(f, k))
  {
    assert k in AllKeys by {
      match k
      case TypeKey => assert AllKeys[0] == k;
      case StatusKey => assert AllKeys[1] == k;
      case UrgencyKey => assert AllKeys[2] == k;
      case DateRangeKey => assert AllKeys[3] == k;
      case StartDateKey => assert AllKeys[4] == k;
      case EndDateKey => assert AllKeys[5] == k;
    }
  }

  /** The chip's remove button emits the filters with that key at 'all', so its chip disappears and the others stay. */
  lemma RemoveChip(f: Filters, k: FilterKey)
    ensures var g := WithFilter(f, k, "all");
      !HasChip(Chips(g), k) && forall k' | k' != k :: HasChip(Chips(g), k') <==> HasChip(Chips(f), k')
  {
    var g := WithFilter(f, k, "all");
    ChipsExactlyActive(g, k);
    forall k' | k' != k
      ensures HasChip(Chips(g), k') <==> HasChip(Chips(f), k')
    {
      ChipsExactlyActive(g, k');
      ChipsExactlyActive(f, k');
    }
  }

  const TypeOptions: seq<Entry> := [
    Entry("all", "All Types"), Entry("medical", "Medical Emergency"), Entry("fire", "Fire Emergency"),
    Entry("accident", "Accident"), Entry("security", "Security Issue"), Entry("natural", "Natural Disaster"),
    Entry("other", "Other")]

  const StatusOptions: seq<Entry> := [
    Entry("all", "All Status"), Entry("completed", "Completed"), Entry("cancelled", "Cancelled"),
    Entry("pending", "Pending"), Entry("in-progress", "In Progress"), Entry("no-response", "No Response")]

  const UrgencyOptions: seq<Entry> := [
    Entry("all", "All Urgency"), Entry("critical", "Critical"), Entry("high", "High"),
    Entry("medium", "Medium"), Entry("low", "Low")]

  const DateRangeOptions: seq<Entry> := [
    Entry("all", "All Time"), Entry("today", "Today"), Entry("week", "This Week"),
    Entry("month", "This Month"), Entry("quarter", "Last 3 Months"), Entry("year", "This Year"),
    Entry("custom", "Custom Range")]

  /** getFilterLabel: the option's label for a select's known value; the raw value otherwise and for the dates. */
  function FilterLabel(k: FilterKey, v: string): string {
    match k
    case TypeKey => Find(TypeOptions, v, v)
    case StatusKey => Find(StatusOptions, v, v)
    case UrgencyKey => Find(UrgencyOptions, v, v)
    case DateRangeKey => Find(DateRangeOptions, v, v)
    case _ => v
  }

  /** The options of each select; the two date inputs have none. */
  function OptionsOf(k: FilterKey): seq<Entry> {
    match k
    case TypeKey => TypeOptions
    case StatusKey => StatusOptions
    case UrgencyKey => UrgencyOptions
    case DateRangeKey => DateRangeOptions
    case _ => []
  }

  /** Every option value of a select is labelled with that option's own text. */
  lemma FilterLabelKnown(k: FilterKey, i: int)
    requires 0 <= i < |OptionsOf(k)|
    ensures FilterLabel(k, OptionsOf(k)[i].key) == OptionsOf(k)[i].value
  {
    OptionListsWellFormed(k);
    FindEntry(OptionsOf(k), i, OptionsOf(k)[i].key);
  }

  /** No select repeats an option value, and every option has a label. */
  lemma OptionListsWellFormed(k: FilterKey)
    ensures UniqueKeys(OptionsOf(k)) && forall j | 0 <= j < |OptionsOf(k)| :: OptionsOf(k)[j].value != ""
  {
    match k
    case TypeKey => TypeOptionsWellFormed();
    case StatusKey => StatusOptionsWellFormed();
    case UrgencyKey => UrgencyOptionsWellFormed();
    case DateRangeKey => DateRangeOptionsWellFormed();
    case _ =>
  }

  lemma TypeOptionsWellFormed()
    ensures UniqueKeys(TypeOptions) && forall j | 0 <= j < |TypeOptions| :: TypeOptions[j].value != ""
  {
  }

  lemma StatusOptionsWellFormed()
    ensures UniqueKeys(StatusOptions) && forall j | 0 <= j < |StatusOptions| :: StatusOptions[j].value != ""
  {
  }

  lemma UrgencyOptionsWellFormed()
    ensures UniqueKeys(UrgencyOptions) && forall j | 0 <= j < |UrgencyOptions| :: UrgencyOptions[j].value != ""
  {
  }

  lemma DateRangeOptionsWellFormed()
    ensures UniqueKeys(DateRangeOptions) && forall j | 0 <= j < |DateRangeOptions| :: DateRangeOptions[j].value != ""
  {
  }

  /** A value none of a key's options carries is shown as it is. */
  lemma FilterLabelUnknown(k: FilterKey, v: string)
    requires !HasKey(OptionsOf(k), v)
    ensures FilterLabel(k, v) == v
  {
    match k
    case TypeKey => assert Find(TypeOptions, v, v) == v;
    case StatusKey => assert Find(StatusOptions, v, v) == v;
    case UrgencyKey => assert Find(UrgencyOptions, v, v) == v;
    case DateRangeKey => assert Find(DateRangeOptions, v, v) == v;
    case _ =>
  }
}
