/** components/ui/topic-input.tsx: topic suggestions and the two ways of adding a topic. */
module TopicInput {
  import opened Text
  import opened Seqs
  import opened Domain
  import opened Effects

  const MaxSuggestions: nat := 5

  /** The test applied to each known topic: it includes the typed text, ignoring case, and is
      not selected yet (an exact, case-sensitive membership test). */
  predicate Suggestable(topic: string, input: string, selectedTopics: seq<string>)
  {
    Contains(Lower(topic), Lower(input)) && topic !in selectedTopics
  }

  /** `suggestions`: the first five suggestable known topics, in the order they are known. */
  function Suggestions(existingTopics: seq<string>, selectedTopics: seq<string>, input: string)
    : (r: seq<string>)
    ensures |r| <= MaxSuggestions
    ensures forall t | t in r :: t in existingTopics && t !in selectedTopics
    ensures forall t | t in r :: Contains(Lower(t), Lower(input))
  {
    Take(Filter(existingTopics, t => Suggestable(t, input, selectedTopics)), MaxSuggestions)
  }

  /** Suggestions are the first five suggestable topics: a prefix of them in the known topics'
      order, as many as there are up to the cap, all of them when there are at most five; with
      an empty input every unselected known topic qualifies. */
  lemma SuggestionsInOrder(existingTopics: seq<string>, selectedTopics: seq<string>, input: string)
    ensures IsSubsequence(Suggestions(existingTopics, selectedTopics, input), existingTopics)
    ensures var f := Filter(existingTopics, t => Suggestable(t, input, selectedTopics));
            Suggestions(existingTopics, selectedTopics, input) == f[..|Suggestions(existingTopics, selectedTopics, input)|]
    ensures var f := Filter(existingTopics, t => Suggestable(t, input, selectedTopics));
            |Suggestions(existingTopics, selectedTopics, input)| == if |f| < MaxSuggestions then |f| else MaxSuggestions
    ensures |Filter(existingTopics, t => Suggestable(t, input, selectedTopics))| <= MaxSuggestions ==>
              forall i | 0 <= i < |existingTopics| && Suggestable(existingTopics[i], input, selectedTopics) ::
                existingTopics[i] in Suggestions(existingTopics, selectedTopics, input)
    ensures input == "" && |existingTopics| <= MaxSuggestions ==>
              forall i | 0 <= i < |existingTopics| && existingTopics[i] !in selectedTopics ::
                existingTopics[i] in Suggestions(existingTopics, selectedTopics, input)
  {
    TakeFilterIsSubsequence(existingTopics, t => Suggestable(t, input, selectedTopics), MaxSuggestions);
    if input == "" {
      forall t { ContainsEmpty(Lower(t)); }
    }
  }

  /** There are suggestions exactly when some known topic is suggestable. */
  lemma SuggestionsNonEmpty(existingTopics: seq<string>, selectedTopics: seq<string>, input: string)
    ensures Suggestions(existingTopics, selectedTopics, input) != [] <==>
              exists t | t in existingTopics :: Suggestable(t, input, selectedTopics)
  {
    var r := Suggestions(existingTopics, selectedTopics, input);
    if r != [] {
      assert r[0] in r;
    }
    if exists t | t in existingTopics :: Suggestable(t, input, selectedTopics) {
      var t :| t in existingTopics && Suggestable(t, input, selectedTopics);
      var i :| 0 <= i < |existingTopics| && existingTopics[i] == t;
      var f := Filter(existingTopics, t => Suggestable(t, input, selectedTopics));
      assert t in f;
    }
  }

  /** The topic Enter would add: the trimmed, lowercased input. */
  function NormalizeTopic(input: string): (t: string)
    ensures t == Lower(Trim(input))
    ensures |t| <= |input|
  {
    var r := Trim(input);
    assert exists i :: OccursAt(input, r, i);
    Lower(r)
  }

  /** Normalising an already normalised topic changes nothing. */
  lemma NormalizeIdempotent(input: string)
    ensures NormalizeTopic(NormalizeTopic(input)) == NormalizeTopic(input)
  {
    var t := Trim(input);
    var l := Lower(t);
    if l != [] {
      assert l[0] == LowerChar(t[0]);
      assert l[|l| - 1] == LowerChar(t[|t| - 1]);
    }
    TrimmedIsFixed(l);
    LowerIdempotent(t);
  }

  /** The input box state; `events` records the `onTopicAdd`/`onTopicRemove` calls made to the parent. */
  class TopicInputView {
    var input: string
    var showSuggestions: bool
    var events: seq<Event>

    constructor ()
      ensures input == "" && !showSuggestions && events == []
    {
      input := "";
      showSuggestions := false;
      events := [];
    }

    /** Whether the dropdown is on screen: it is enabled and some known topic is suggestable. */
    function DropdownShown(existingTopics: seq<string>, selectedTopics: seq<string>): (b: bool)
      reads this
      ensures b <==> showSuggestions && exists t | t in existingTopics :: Suggestable(t, input, selectedTopics)
    {
      SuggestionsNonEmpty(existingTopics, selectedTopics, input);
      showSuggestions && |Suggestions(existingTopics, selectedTopics, input)| > 0
    }

    method Type(text: string)
      modifies this`input
      ensures input == text
    {
      input := text;
    }

    method Focus()
      modifies this`showSuggestions
      ensures showSuggestions
    {
      showSuggestions := true;
    }

    /** `handleInputKeyDown`: Enter on non-blank input offers the normalised topic unless it is
        already selected, and clears the input either way; any other case changes nothing. */
    method KeyDown(key: string, selectedTopics: seq<string>)
      modifies this`input, this`events
      ensures key != "Enter" || IsBlank(old(input)) ==> input == old(input) && events == old(events)
      ensures key == "Enter" && !IsBlank(old(input)) ==>
                input == "" &&
                events == old(events) + (if NormalizeTopic(old(input)) in selectedTopics then []
                                         else [TopicAdded(NormalizeTopic(old(input)))])
    {
      if key == "Enter" && !IsBlank(input) {
        var newTopic := NormalizeTopic(input);
        if newTopic !in selectedTopics {
          events := events + [TopicAdded(newTopic)];
        }
        input := "";
      }
    }

    /** `handleSuggestionClick`: adds the suggestion, clears the input and hides the list, then
        focuses the input. When the click had taken the focus away from the input, that focus
        runs the input's focus handler in the same batch, which enables the list again; when the
        input kept the focus, focusing it again does nothing and the list stays hidden. */
    method SuggestionClick(topic: string, inputHadFocus: bool)
      modifies this
      ensures events == old(events) + [TopicAdded(topic)]
      ensures input == ""
      ensures showSuggestions <==> !inputHadFocus
    {
      events := events + [TopicAdded(topic)];
      input := "";
      showSuggestions := false;
      if !inputHadFocus {
        Focus();
      }
    }

    /** A badge's remove button hands the topic back to the parent. */
    method RemoveClick(topic: string)
      modifies this`events
      ensures events == old(events) + [TopicRemoved(topic)]
    {
      events := events + [TopicRemoved(topic)];
    }
  }
}
