/** components/DatasetList.tsx: sorting the loaded datasets and the load effect around it.
    `Array.prototype.sort` is stable, so each ordering is modelled as a stable insertion sort
    on a numeric key compared in descending order (the comparators are `b.key - a.key`). */
module DatasetList {
  import opened Domain
  import opened Effects

  datatype SortOption = Popular | Recent | Size | Category | Unrecognised

  /** The numeric field a comparator reads. */
  datatype SortKey = Likes | UploadDate | SizeMb

  function Key(d: Dataset, k: SortKey): int
  {
    match k
    case Likes => d.likes
    case UploadDate => d.upload_date
    case SizeMb => d.size
  }

  /** Adjacent elements never increase in the key. */
  predicate SortedDesc(s: seq<Dataset>, k: SortKey)
  {
    forall i :: 0 <= i < |s| - 1 ==> Key(s[i], k) >= Key(s[i + 1], k)
  }

  /** The datasets whose key equals `v`, in order. */
  function WithKey(s: seq<Dataset>, k: SortKey, v: int): (r: seq<Dataset>)
    ensures |r| <= |s|
  {
    if s == [] then []
    else if Key(s[0], k) == v then [s[0]] + WithKey(s[1..], k, v)
    else WithKey(s[1..], k, v)
  }

  /** Places `x` before the first element whose key is not larger than its own. Since `x`
      came earlier in the input than everything in `s`, it stays ahead of its equals. */
  function Insert(x: Dataset, s: seq<Dataset>, k: SortKey): (r: seq<Dataset>)
    ensures |r| == |s| + 1
    ensures r[0] == x || (s != [] && r[0] == s[0])
    ensures SortedDesc(s, k) ==> SortedDesc(r, k)
  {
    if s == [] || Key(s[0], k) <= Key(x, k) then [x] + s
    else
      var rest := Insert(x, s[1..], k);
      assert s == [s[0]] + s[1..];
      [s[0]] + rest
  }

  /** Stable sort by `k`, largest key first. */
  function SortBy(s: seq<Dataset>, k: SortKey): (r: seq<Dataset>)
    ensures |r| == |s|
    ensures SortedDesc(r, k)
  {
    if s == [] then [] else Insert(s[0], SortBy(s[1..], k), k)
  }

  /** Inserting adds exactly `x` to the multiset of elements. */
  lemma {:induction false} InsertPermutes(x: Dataset, s: seq<Dataset>, k: SortKey)
    ensures multiset(Insert(x, s, k)) == multiset([x] + s)
  {
    if s != [] && Key(s[0], k) > Key(x, k) {
      InsertPermutes(x, s[1..], k);
      assert s == [s[0]] + s[1..];
    }
  }

  /** Sorting only reorders: every dataset occurs as often in the output as in the input. */
  lemma {:induction false} SortByPermutes(s: seq<Dataset>, k: SortKey)
    ensures multiset(SortBy(s, k)) == multiset(s)
  {
    if s != [] {
      SortByPermutes(s[1..], k);
      InsertPermutes(s[0], SortBy(s[1..], k), k);
      assert s == [s[0]] + s[1..];
    }
  }

  /** `sortDatasets`: a sorted copy for the three numeric options; the input itself otherwise.
      The 'category' comparator is not modelled and that option keeps the input order. */
  function SortDatasets(data: seq<Dataset>, sort: SortOption): (r: seq<Dataset>)
    ensures multiset(r) == multiset(data)
    ensures sort == Popular ==> SortedDesc(r, Likes)
    ensures sort == Recent ==> SortedDesc(r, UploadDate)
    ensures sort == Size ==> SortedDesc(r, SizeMb)
    ensures sort == Unrecognised ==> r == data
  {
    match sort
    case Popular => SortByPermutes(data, Likes); SortBy(data, Likes)
    case Recent => SortByPermutes(data, UploadDate); SortBy(data, UploadDate)
    case Size => SortByPermutes(data, SizeMb); SortBy(data, SizeMb)
    case Category => data
    case Unrecognised => data
  }

  /** The key option a sort option compares on, for the three numeric options. */
  function KeyOf(sort: SortOption): Option<SortKey>
  {
    match sort
    case Popular => Some(Likes)
    case Recent => Some(UploadDate)
    case Size => Some(SizeMb)
    case _ => None
  }

  /** Inserting `x` adds it in front of its equals and moves nothing else among them. */
  lemma {:induction false} InsertWithKey(x: Dataset, s: seq<Dataset>, k: SortKey, v: int)
    ensures WithKey(Insert(x, s, k), k, v)
            == if Key(x, k) == v then [x] + WithKey(s, k, v) else WithKey(s, k, v)
  {
    if s == [] || Key(s[0], k) <= Key(x, k) {
      assert ([x] + s)[1..] == s;
    } else {
      InsertWithKey(x, s[1..], k, v);
      assert ([s[0]] + Insert(x, s[1..], k))[1..] == Insert(x, s[1..], k);
    }
  }

  /** Stability: for every key value, the datasets with that value come out in input order. */
  lemma {:induction false} SortByIsStable(s: seq<Dataset>, k: SortKey, v: int)
    ensures WithKey(SortBy(s, k), k, v) == WithKey(s, k, v)
  {
    if s != [] {
      SortByIsStable(s[1..], k, v);
      InsertWithKey(s[0], SortBy(s[1..], k), k, v);
    }
  }

  /** An element at least as large as the head goes in front. */
  lemma InsertInFront(x: Dataset, s: seq<Dataset>, k: SortKey)
    requires s == [] || Key(s[0], k) <= Key(x, k)
    ensures Insert(x, s, k) == [x] + s
  {
  }

  /** Dropping the first element keeps a sequence sorted. */
  lemma SortedTail(s: seq<Dataset>, k: SortKey)
    requires s != [] && SortedDesc(s, k)
    ensures SortedDesc(s[1..], k)
  {
    var t := s[1..];
    forall i | 0 <= i < |t| - 1 ensures Key(t[i], k) >= Key(t[i + 1], k) {
      assert t[i] == s[i + 1] && t[i + 1] == s[i + 2];
    }
  }

  /** An already sorted sequence is left exactly as it is. */
  lemma {:induction false} SortBySorted(s: seq<Dataset>, k: SortKey)
    requires SortedDesc(s, k)
    ensures SortBy(s, k) == s
  {
    if s != [] {
      var t := s[1..];
      SortedTail(s, k);
      SortBySorted(t, k);
      if t != [] {
        assert Key(s[0], k) >= Key(s[1], k);
      }
      InsertInFront(s[0], t, k);
      assert [s[0]] + t == s;
    }
  }

  /** Every numeric ordering is stable, and re-sorting its own output changes nothing. */
  lemma SortDatasetsStableAndIdempotent(data: seq<Dataset>, sort: SortOption, v: int)
    ensures KeyOf(sort).Some? ==> WithKey(SortDatasets(data, sort), KeyOf(sort).value, v)
                                  == WithKey(data, KeyOf(sort).value, v)
    ensures SortDatasets(SortDatasets(data, sort), sort) == SortDatasets(data, sort)
  {
    match sort
    case Popular =>
      SortByIsStable(data, Likes, v);
      SortBySorted(SortBy(data, Likes), Likes);
    case Recent =>
      SortByIsStable(data, UploadDate, v);
      SortBySorted(SortBy(data, UploadDate), UploadDate);
    case Size =>
      SortByIsStable(data, SizeMb, v);
      SortBySorted(SortBy(data, SizeMb), SizeMb);
    case _ =>
  }

  /** Two datasets, one popular and old, one unpopular and recent: 'recent' puts the second
      first, 'popular' keeps the first first. */
  lemma TwoDatasetScenario(a: Dataset, b: Dataset)
    requires a.likes == 5 && b.likes == 1
    requires a.upload_date < b.upload_date
    ensures SortDatasets([a, b], Recent) == [b, a]
    ensures SortDatasets([a, b], Popular) == [a, b]
  {
    assert [a, b][1..] == [b];
    assert SortBy([b], UploadDate) == [b];
    assert SortBy([b], Likes) == [b];
  }

  /** The list view: the selected ordering, the datasets on show and the load status. */
  class DatasetListView {
    var sortBy: SortOption
    var datasets: seq<Dataset>
    var isLoading: bool
    var error: Option<string>
    /** Gateway calls issued so far. */
    var calls: seq<Call>

    constructor ()
      ensures sortBy == Recent && datasets == [] && isLoading && error == None && calls == []
    {
      sortBy := Recent;
      datasets := [];
      isLoading := true;
      error := None;
      calls := [];
    }

    /** The `loadDatasets` effect: fetch, sort by the current option, then clear the loading flag.
        A failed fetch keeps the previous list and shows the fixed message. */
    method LoadDatasets(reply: Reply<seq<Dataset>>)
      modifies this
      ensures calls == old(calls) + [GetDatasets]
      ensures sortBy == old(sortBy) && !isLoading
      ensures reply.Ok? ==> datasets == SortDatasets(reply.value, sortBy) && error == None
      ensures reply.Threw? ==> datasets == old(datasets) && error == Some("Failed to load datasets")
    {
      isLoading := true;
      calls := calls + [GetDatasets];
      match reply {
        case Ok(data) =>
          datasets := SortDatasets(data, sortBy);
          error := None;
        case Threw(_) =>
          error := Some("Failed to load datasets");
      }
      isLoading := false;
    }

    /** The sort select, which is on screen only once loading is over without an error.
        Choosing another ordering re-runs the load effect, which depends on `sortBy`; choosing
        the current one leaves the state as it is, so the effect does not run again. */
    method ChangeSort(option: SortOption, reply: Reply<seq<Dataset>>)
      requires !isLoading && error == None
      modifies this
      ensures option == old(sortBy) ==>
                sortBy == old(sortBy) && datasets == old(datasets) && calls == old(calls)
                && !isLoading && error == None
      ensures option != old(sortBy) ==>
                sortBy == option && !isLoading && calls == old(calls) + [GetDatasets]
      ensures option != old(sortBy) && reply.Ok? ==> datasets == SortDatasets(reply.value, option) && error == None
      ensures option != old(sortBy) && reply.Threw? ==>
                datasets == old(datasets) && error == Some("Failed to load datasets")
    {
      if option != sortBy {
        sortBy := option;
        LoadDatasets(reply);
      }
    }
  }
}
