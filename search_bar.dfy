/** components/SearchBar.tsx: the capped, case-insensitive search over the loaded datasets
    and the dropdown state around it. */
module SearchBar {
  import opened Text
  import opened Seqs
  import opened Domain
  import opened Effects

  /** At most this many results are listed. */
  const MaxResults: nat := 5

  /** `searchResults`: nothing for a blank query; otherwise the first five matches in order.
      Trimming decides only blankness; matching uses the untrimmed query. */
  function SearchResults(query: string, datasets: seq<Dataset>): (r: seq<Dataset>)
    ensures IsBlank(query) ==> r == []
    ensures |r| <= MaxResults
    ensures forall d | d in r :: d in datasets && MatchesQuery(d, query)
  {
    if IsBlank(query) then [] else Take(Filter(datasets, d => MatchesQuery(d, query)), MaxResults)
  }

  /** The results are the first five matches: a prefix of the matches in the datasets' order,
      as long as the matches allow up to five; when at most five datasets match, every
      matching dataset is listed. */
  lemma SearchResultsComplete(query: string, datasets: seq<Dataset>)
    requires !IsBlank(query)
    ensures IsSubsequence(SearchResults(query, datasets), datasets)
    ensures var m := Filter(datasets, d => MatchesQuery(d, query));
            SearchResults(query, datasets) == m[..|SearchResults(query, datasets)|]
    ensures var m := Filter(datasets, d => MatchesQuery(d, query));
            |SearchResults(query, datasets)| == if |m| < MaxResults then |m| else MaxResults
    ensures |Filter(datasets, d => MatchesQuery(d, query))| <= MaxResults ==>
              forall i | 0 <= i < |datasets| && MatchesQuery(datasets[i], query) ::
                datasets[i] in SearchResults(query, datasets)
  {
    TakeFilterIsSubsequence(datasets, d => MatchesQuery(d, query), MaxResults);
  }

  /** Trimming is not applied to the matching: a query with a leading space does not find a
      dataset whose name is the query without that space. */
  lemma UntrimmedQueryScenario(d: Dataset)
    requires d.name == "ab" && d.description == ""
    ensures SearchResults(" ab", [d]) == []
  {
    var q := " ab";
    assert Lower(q) == q by {
      assert forall i | 0 <= i < |q| :: LowerChar(q[i]) == q[i];
    }
    assert Lower(d.name) == d.name by {
      assert forall i | 0 <= i < |d.name| :: LowerChar(d.name[i]) == d.name[i];
    }
    ContainsNeedsRoom(Lower(d.name), q);
    ContainsNeedsRoom(Lower(d.description), q);
    assert !MatchesQuery(d, q);
    assert [d][1..] == [];
  }

  /** The search box: its text, whether the dropdown is open and the loaded datasets. */
  class SearchBarView {
    var query: string
    var isOpen: bool
    var isLoading: bool
    var datasets: seq<Dataset>
    var calls: seq<Call>

    constructor ()
      ensures query == "" && !isOpen && !isLoading && datasets == [] && calls == []
    {
      query := "";
      isOpen := false;
      isLoading := false;
      datasets := [];
      calls := [];
    }

    /** What the dropdown lists. */
    function Results(): seq<Dataset>
      reads this
    {
      SearchResults(query, datasets)
    }

    /** The mount effect: a failed load keeps the current (empty) list. */
    method LoadDatasets(reply: Reply<seq<Dataset>>)
      modifies this
      ensures calls == old(calls) + [GetDatasets]
      ensures !isLoading && query == old(query) && isOpen == old(isOpen)
      ensures datasets == if reply.Ok? then reply.value else old(datasets)
    {
      isLoading := true;
      calls := calls + [GetDatasets];
      if reply.Ok? {
        datasets := reply.value;
      }
      isLoading := false;
    }

    /** Typing replaces the query and opens the dropdown. */
    method Type(text: string)
      modifies this
      ensures query == text && isOpen
      ensures datasets == old(datasets) && isLoading == old(isLoading) && calls == old(calls)
    {
      query := text;
      isOpen := true;
    }

    /** Focusing the box opens the dropdown and changes nothing else. */
    method Focus()
      modifies this`isOpen
      ensures isOpen
    {
      isOpen := true;
    }

    /** Choosing a result (navigation aside) closes the dropdown and clears the query. */
    method ChooseResult()
      modifies this
      ensures !isOpen && query == ""
      ensures Results() == []
      ensures datasets == old(datasets) && isLoading == old(isLoading) && calls == old(calls)
    {
      isOpen := false;
      query := "";
    }
  }
}
