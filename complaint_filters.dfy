/**
 * The filter panel both dashboards share: editing one key of the filter set, clearing
 * the whole set, and deciding whether any filter is in force.
 */
module FilterPanel {
  import opened Wrappers
  import opened ComplaintTypes

  datatype FilterKey = StatusKey | CategoryKey | PriorityKey | SearchKey

  /** `filters[key]`. */
  function Get(f: ComplaintFilters, key: FilterKey): Option<string> {
    match key
    case StatusKey => f.status
    case CategoryKey => f.category
    case PriorityKey => f.priority
    case SearchKey => f.search
  }

  /** A key is in force when it holds a truthy value: present and not the empty string. */
  predicate Active(v: Option<string>) {
    v.Some? && v.value != ""
  }

  /**
   * `{ ...filters, [key]: value || undefined }`: the key takes the value, or is cleared by
   * the empty string; every other key keeps what it held.
   */
  function HandleFilterChange(f: ComplaintFilters, key: FilterKey, value: string): (g: ComplaintFilters)
    ensures value != "" ==> Get(g, key) == Some(value)
    ensures value == "" ==> Get(g, key) == None
    ensures forall other :: other != key ==> Get(g, other) == Get(f, other)
  {
    var v := if value == "" then None else Some(value);
    match key
    case StatusKey => f.(status := v)
    case CategoryKey => f.(category := v)
    case PriorityKey => f.(priority := v)
    case SearchKey => f.(search := v)
  }

  /** `{}`: the filter set with every key absent. */
  const NoFilters: ComplaintFilters := ComplaintFilters(None, None, None, None)

  /** `clearFilters`: the filter set becomes empty, whatever it held. */
  function ClearFilters(f: ComplaintFilters): (g: ComplaintFilters)
    ensures forall key :: Get(g, key) == None
  {
    NoFilters
  }

  /**
   * `Object.values(filters).some(value => value)`: some filter is in force exactly when
   * some key holds a non-empty value.
   */
  predicate HasActiveFilters(f: ComplaintFilters): (r: bool)
    ensures r <==> exists key :: Active(Get(f, key))
  {
    assert Active(f.status) ==> Active(Get(f, StatusKey));
    assert Active(f.category) ==> Active(Get(f, CategoryKey));
    assert Active(f.priority) ==> Active(Get(f, PriorityKey));
    assert Active(f.search) ==> Active(Get(f, SearchKey));
    Active(f.status) || Active(f.category) || Active(f.priority) || Active(f.search)
  }

  /** After a clear, no filter is in force. */
  lemma ClearedIsInactive(f: ComplaintFilters)
    ensures !HasActiveFilters(ClearFilters(f))
  {
    assert Get(ClearFilters(f), StatusKey) == None;
  }

  /** Setting a key to a non-empty value puts a filter in force. */
  lemma ChangeActivates(f: ComplaintFilters, key: FilterKey, value: string)
    requires value != ""
    ensures HasActiveFilters(HandleFilterChange(f, key, value))
  {
    assert Active(Get(HandleFilterChange(f, key, value), key));
  }

  /** Clearing the only key in force leaves no filter in force. */
  lemma ClearingLastKeyDeactivates(f: ComplaintFilters, key: FilterKey)
    requires forall other :: other != key ==> !Active(Get(f, other))
    ensures !HasActiveFilters(HandleFilterChange(f, key, ""))
  {
    var g := HandleFilterChange(f, key, "");
    assert forall k :: Get(g, k) == None || Get(g, k) == Get(f, k);
  }

  /** The last change to a key wins: an earlier change to the same key leaves no trace. */
  lemma LastChangeWins(f: ComplaintFilters, key: FilterKey, first: string, second: string)
    ensures HandleFilterChange(HandleFilterChange(f, key, first), key, second) == HandleFilterChange(f, key, second)
  {
  }

  /** Changes to different keys commute. */
  lemma ChangesCommute(f: ComplaintFilters, k1: FilterKey, v1: string, k2: FilterKey, v2: string)
    requires k1 != k2
    ensures HandleFilterChange(HandleFilterChange(f, k1, v1), k2, v2)
         == HandleFilterChange(HandleFilterChange(f, k2, v2), k1, v1)
  {
  }
}
