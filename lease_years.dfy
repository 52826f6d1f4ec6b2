/**
 * The year categories of the lease-expiry path: the distinct parsed years
 * without the year 1970 (the epoch year, which a null date gives in UTC), in ascending order.
 */
module LeaseYears {
  import opened ArrayUtil

  /** The year of the epoch; `new Date(null).getFullYear()` gives it in UTC. */
  const SENTINEL_YEAR: int := 1970

  function YearKey(y: int): real { y as real }

  /** `years.filter(onlyUnique)`, then `.filter(v => v != '1970')`, then `.sort((a, b) => a - b)`. */
  function YearCategories(years: seq<int>): seq<int> {
    SortBy(RemoveAll(OnlyUnique(years), SENTINEL_YEAR), YearKey)
  }

  /** The categories are strictly ascending. */
  lemma CategoriesAscending(years: seq<int>)
    ensures var c := YearCategories(years); forall i, j :: 0 <= i < j < |c| ==> c[i] < c[j]
  {
    var f := RemoveAll(OnlyUnique(years), SENTINEL_YEAR);
    var c := SortBy(f, YearKey);
    DistinctPermutation(f, c);
    StrictlyAscending(c);
  }

  lemma StrictlyAscending(c: seq<int>)
    requires SortedBy(c, YearKey) && Distinct(c)
    ensures forall i, j :: 0 <= i < j < |c| ==> c[i] < c[j]
  {
    forall i, j | 0 <= i < j < |c| ensures c[i] < c[j] {
      assert YearKey(c[i]) <= YearKey(c[j]);
    }
  }

  /** The categories are exactly the years other than 1970 that occur. */
  lemma CategoriesMembers(years: seq<int>)
    ensures var c := YearCategories(years);
      && (forall i :: 0 <= i < |c| ==> c[i] != SENTINEL_YEAR && c[i] in years)
      && (forall k :: 0 <= k < |years| && years[k] != SENTINEL_YEAR ==> years[k] in c)
  {
    var u := OnlyUnique(years);
    var f := RemoveAll(u, SENTINEL_YEAR);
    var c := SortBy(f, YearKey);
    forall i | 0 <= i < |c| ensures c[i] != SENTINEL_YEAR && c[i] in years {
      assert c[i] in multiset(f);
      assert c[i] in f;
    }
    forall k | 0 <= k < |years| && years[k] != SENTINEL_YEAR ensures years[k] in c {
      assert years[k] in u;
      assert years[k] in f;
      assert years[k] in multiset(c);
    }
  }

  /** All categories survive exactly when the parsed years are distinct and none is 1970. */
  lemma CategoriesKeepAll(years: seq<int>)
    ensures |YearCategories(years)| == |years| <==> Distinct(years) && SENTINEL_YEAR !in years
  {
    var u := OnlyUnique(years);
    OnlyUniqueKeepsAll(years);
    var f := RemoveAll(u, SENTINEL_YEAR);
    OccurrencesMembership(u, SENTINEL_YEAR);
    assert SENTINEL_YEAR in u <==> SENTINEL_YEAR in years;
  }
}
