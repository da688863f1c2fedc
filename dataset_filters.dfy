/** components/DatasetFilters.tsx: the license and topic filters and their reset control. */
module DatasetFilters {

  /** The license filter's choices; 'All' means no license filter. */
  const LICENSES: seq<string> :=
    ["All", "MIT", "Apache-2.0", "GPL-3.0", "BSD-3-Clause", "CC BY 4.0", "Public Domain"]

  /** The value meaning "no filter" for either field. */
  const NoFilter: string := "All"

  datatype Filters = Filters(license: string, topic: string)

  /** `[a, b].reduce((a, b) => a + b, 0)`. */
  function Sum(xs: seq<int>): int
  {
    if xs == [] then 0 else xs[0] + Sum(xs[1..])
  }

  function Indicator(active: bool): int
  {
    if active then 1 else 0
  }

  /** `activeFilterCount`: how many of the two fields are not 'All'. */
  function ActiveFilterCount(f: Filters): (n: int)
    ensures 0 <= n <= 2
    ensures n == 0 <==> f.license == NoFilter && f.topic == NoFilter
    ensures n == 2 <==> f.license != NoFilter && f.topic != NoFilter
  {
    var xs := [Indicator(f.license != NoFilter), Indicator(f.topic != NoFilter)];
    assert Sum(xs) == xs[0] + Sum(xs[1..]) == xs[0] + (xs[1] + Sum(xs[1..][1..]));
    assert xs[1..][1..] == [];
    Sum(xs)
  }

  /** The reset control is shown exactly when some filter is active. */
  function ShowReset(f: Filters): (b: bool)
    ensures b <==> f.license != NoFilter || f.topic != NoFilter
  {
    ActiveFilterCount(f) > 0
  }

  /** The topic select's `onValueChange`: `{ ...filters, topic: value }`. */
  function SetTopic(f: Filters, value: string): (r: Filters)
    ensures r.topic == value && r.license == f.license
  {
    f.(topic := value)
  }

  /** The license select's `onValueChange`: `{ ...filters, license: value }`. */
  function SetLicense(f: Filters, value: string): (r: Filters)
    ensures r.license == value && r.topic == f.topic
  {
    f.(license := value)
  }

  /** Changing one field moves the count by at most one, and choosing 'All' never raises it. */
  lemma CountAfterChange(f: Filters, value: string)
    ensures -1 <= ActiveFilterCount(SetTopic(f, value)) - ActiveFilterCount(f) <= 1
    ensures -1 <= ActiveFilterCount(SetLicense(f, value)) - ActiveFilterCount(f) <= 1
    ensures value == NoFilter ==> ActiveFilterCount(SetTopic(f, value)) <= ActiveFilterCount(f)
    ensures value == NoFilter ==> ActiveFilterCount(SetLicense(f, value)) <= ActiveFilterCount(f)
    ensures ActiveFilterCount(SetLicense(SetTopic(f, NoFilter), NoFilter)) == 0
  {
  }
}
