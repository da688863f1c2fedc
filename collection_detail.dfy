/** components/collections/CollectionDetail.tsx: the collection page. Pure parts are the
    "not yet a member" search filter, the updater that drops removed items and the ownership
    test; the handlers drive the title/description edit state and the remote membership calls. */
module CollectionDetail {
  import opened Text
  import opened Seqs
  import opened Domain
  import opened Effects

  /** `isOwner`: `publicKey?.toString() === collection?.created_by`. Optional chaining makes
      both sides `undefined` when there is neither a wallet nor a collection, and then the
      strict comparison holds. */
  function IsOwner(wallet: Wallet, collection: Option<Collection>): (r: bool)
    ensures collection.Some? ==> (r <==> wallet == Some(collection.value.created_by))
    ensures wallet.Some? && collection.None? ==> !r
    ensures wallet.None? && collection.None? ==> r
  {
    match (wallet, collection)
    case (Some(w), Some(c)) => w == c.created_by
    case (None, None) => true
    case _ => false
  }

  /** The per-dataset test of `filteredDatasets`. */
  predicate Offered(d: Dataset, collection: Option<Collection>, searchQuery: string)
  {
    if collection.Some? && HasMember(collection.value, d.id) then false
    else if IsBlank(searchQuery) then true
    else MatchesQuery(d, searchQuery)
  }

  /** `filteredDatasets`: the datasets that can still be added, narrowed by the search box. */
  function FilteredDatasets(all: seq<Dataset>, collection: Option<Collection>, searchQuery: string)
    : (r: seq<Dataset>)
    ensures forall d | d in r :: d in all && !(collection.Some? && HasMember(collection.value, d.id))
    ensures !IsBlank(searchQuery) ==> forall d | d in r :: MatchesQuery(d, searchQuery)
    ensures !IsBlank(searchQuery) ==>
              forall i | 0 <= i < |all| && !(collection.Some? && HasMember(collection.value, all[i].id))
                         && MatchesQuery(all[i], searchQuery) ::
                all[i] in r
    ensures IsBlank(searchQuery) ==>
              forall i | 0 <= i < |all| && !(collection.Some? && HasMember(collection.value, all[i].id)) ::
                all[i] in r
  {
    Filter(all, d => Offered(d, collection, searchQuery))
  }

  /** The offered datasets keep the order in which they were loaded. */
  lemma FilteredDatasetsInOrder(all: seq<Dataset>, collection: Option<Collection>, searchQuery: string)
    ensures IsSubsequence(FilteredDatasets(all, collection, searchQuery), all)
  {
    FilterIsSubsequence(all, d => Offered(d, collection, searchQuery));
  }

  /** The functional updater of a successful removal: every item for `datasetId` goes,
      everything else about the collection stays. */
  function RemoveItems(prev: Option<Collection>, datasetId: string): (r: Option<Collection>)
    ensures r.Some? <==> prev.Some?
    ensures r.Some? ==> r.value.(datasets := prev.value.datasets) == prev.value
    ensures r.Some? ==> !HasMember(r.value, datasetId)
    ensures r.Some? ==> (r.value.datasets.Some? <==> prev.value.datasets.Some?)
    ensures r.Some? && r.value.datasets.Some? ==>
              (forall item | item in r.value.datasets.value :: item in prev.value.datasets.value) &&
              (forall item | item in prev.value.datasets.value && item.dataset.id != datasetId ::
                 item in r.value.datasets.value)
  {
    match prev
    case None => None
    case Some(c) =>
      if c.datasets.Some? then
        var kept := Filter(c.datasets.value, (item: CollectionItem) => item.dataset.id != datasetId);
        assert forall i | 0 <= i < |kept| :: kept[i] in kept;
        Some(c.(datasets := Some(kept)))
      else Some(c)
  }

  datatype Field = Title | Description

  /** The removal is a filter: the kept items are in their previous order, and each item of
      another dataset keeps its number of copies. */
  lemma RemoveItemsInOrder(prev: Option<Collection>, datasetId: string)
    ensures var r := RemoveItems(prev, datasetId);
            r.Some? && r.value.datasets.Some? ==> IsSubsequence(r.value.datasets.value, prev.value.datasets.value)
    ensures var r := RemoveItems(prev, datasetId);
            r.Some? && r.value.datasets.Some? ==>
              forall item: CollectionItem | item.dataset.id != datasetId ::
                multiset(r.value.datasets.value)[item] == multiset(prev.value.datasets.value)[item]
  {
    if prev.Some? && prev.value.datasets.Some? {
      var items := prev.value.datasets.value;
      var p := (item: CollectionItem) => item.dataset.id != datasetId;
      FilterIsSubsequence(items, p);
      forall item: CollectionItem | item.dataset.id != datasetId
        ensures multiset(Filter(items, p))[item] == multiset(items)[item]
      {
        FilterCount(items, p, item);
      }
    }
  }

  /** The page state for one collection id. */
  class CollectionDetailView {
    const collectionId: string
    var wallet: Wallet
    var collection: Option<Collection>
    var loading: bool
    var searchQuery: string
    var allDatasets: seq<Dataset>
    var searching: bool
    var editingTitle: bool
    var editingDescription: bool
    var pendingTitle: string
    var pendingDescription: string
    var calls: seq<Call>

    constructor (id: string, w: Wallet)
      ensures collectionId == id && wallet == w && collection == None && loading
      ensures searchQuery == "" && allDatasets == [] && !searching
      ensures !editingTitle && !editingDescription && pendingTitle == "" && pendingDescription == ""
      ensures calls == []
    {
      collectionId := id;
      wallet := w;
      collection := None;
      loading := true;
      searchQuery := "";
      allDatasets := [];
      searching := false;
      editingTitle, editingDescription := false, false;
      pendingTitle, pendingDescription := "", "";
      calls := [];
    }

    function Owner(): bool
      reads this
    {
      IsOwner(wallet, collection)
    }

    /** What the "add datasets" dialog lists. */
    function Offers(): seq<Dataset>
      reads this
    {
      FilteredDatasets(allDatasets, collection, searchQuery)
    }

    /** `loadCollection`: a failed fetch keeps the previous collection. */
    method LoadCollection(reply: Reply<Option<Collection>>)
      modifies this
      ensures calls == old(calls) + [GetCollectionById(collectionId)]
      ensures collection == if reply.Ok? then reply.value else old(collection)
      ensures !loading
      ensures wallet == old(wallet) && searchQuery == old(searchQuery) && allDatasets == old(allDatasets)
      ensures searching == old(searching)
      ensures editingTitle == old(editingTitle) && editingDescription == old(editingDescription)
      ensures pendingTitle == old(pendingTitle) && pendingDescription == old(pendingDescription)
    {
      loading := true;
      calls := calls + [GetCollectionById(collectionId)];
      if reply.Ok? {
        collection := reply.value;
      }
      loading := false;
    }

    /** `loadAllDatasets`, run when the owner opens the add dialog. */
    method LoadAllDatasets(reply: Reply<seq<Dataset>>)
      modifies this`allDatasets, this`searching, this`calls
      ensures calls == old(calls) + [GetDatasets]
      ensures allDatasets == if reply.Ok? then reply.value else old(allDatasets)
      ensures !searching
    {
      searching := true;
      calls := calls + [GetDatasets];
      if reply.Ok? {
        allDatasets := reply.value;
      }
      searching := false;
    }

    method SetSearchQuery(text: string)
      modifies this`searchQuery
      ensures searchQuery == text
    {
      searchQuery := text;
    }

    /** `handleAddDataset`: membership changes only through the re-fetch after a successful add;
        there is no local adjustment, and a failed add changes nothing. */
    method AddDataset(datasetId: string, added: Reply<()>, reload: Reply<Option<Collection>>)
      modifies this
      ensures added.Threw? ==> calls == old(calls) + [AddToCollection(collectionId, datasetId)]
      ensures added.Ok? ==> calls == old(calls) + [AddToCollection(collectionId, datasetId),
                                                  GetCollectionById(collectionId)]
      ensures collection == if added.Ok? && reload.Ok? then reload.value else old(collection)
      ensures loading == (if added.Ok? then false else old(loading))
      ensures wallet == old(wallet) && searchQuery == old(searchQuery) && allDatasets == old(allDatasets)
      ensures searching == old(searching)
      ensures editingTitle == old(editingTitle) && editingDescription == old(editingDescription)
      ensures pendingTitle == old(pendingTitle) && pendingDescription == old(pendingDescription)
    {
      calls := calls + [AddToCollection(collectionId, datasetId)];
      if added.Ok? {
        LoadCollection(reload);
      }
    }

    /** `handleRemoveDataset`: after a successful removal the local copy drops the dataset's
        items; a failure leaves everything as it was. */
    method RemoveDataset(datasetId: string, removed: Reply<()>)
      modifies this`collection, this`calls
      ensures calls == old(calls) + [RemoveFromCollection(collectionId, datasetId)]
      ensures collection == if removed.Ok? then RemoveItems(old(collection), datasetId) else old(collection)
    {
      calls := calls + [RemoveFromCollection(collectionId, datasetId)];
      if removed.Ok? {
        collection := RemoveItems(collection, datasetId);
      }
    }

    /** `handleStartEdit`: only the owner enters edit mode; the pending text starts from the
        current value, or '' when there is none. */
    method StartEdit(field: Field)
      modifies this`editingTitle, this`editingDescription, this`pendingTitle, this`pendingDescription
      ensures !old(Owner()) ==> editingTitle == old(editingTitle) && editingDescription == old(editingDescription)
                                && pendingTitle == old(pendingTitle) && pendingDescription == old(pendingDescription)
      ensures old(Owner()) && field == Title ==>
                editingTitle && editingDescription == old(editingDescription)
                && pendingTitle == (if collection.Some? then collection.value.name else "")
                && pendingDescription == old(pendingDescription)
      ensures old(Owner()) && field == Description ==>
                editingDescription && editingTitle == old(editingTitle)
                && pendingDescription == (if collection.Some? && collection.value.description.Some?
                                          then collection.value.description.value else "")
                && pendingTitle == old(pendingTitle)
    {
      if !Owner() {
        return;
      }
      if field == Title {
        editingTitle := true;
        pendingTitle := if collection.Some? then collection.value.name else "";
      } else {
        editingDescription := true;
        pendingDescription := if collection.Some? && collection.value.description.Some?
                              then collection.value.description.value else "";
      }
    }

    /** `handleSave`: a successful update writes the pending text into that one field and leaves
        edit mode; a failed one stays in edit mode with the collection unchanged. */
    method Save(field: Field, reply: Reply<()>)
      modifies this`collection, this`editingTitle, this`editingDescription, this`calls
      ensures field == Title ==> calls == old(calls) + [UpdateCollection(collectionId, NameChange(pendingTitle))]
      ensures field == Description ==>
                calls == old(calls) + [UpdateCollection(collectionId, DescriptionChange(pendingDescription))]
      ensures reply.Threw? ==> collection == old(collection) && editingTitle == old(editingTitle)
                               && editingDescription == old(editingDescription)
      ensures reply.Ok? && field == Title ==>
                !editingTitle && editingDescription == old(editingDescription)
                && collection == (if old(collection).Some?
                                  then Some(old(collection).value.(name := pendingTitle)) else None)
      ensures reply.Ok? && field == Description ==>
                !editingDescription && editingTitle == old(editingTitle)
                && collection == (if old(collection).Some?
                                  then Some(old(collection).value.(description := Some(pendingDescription)))
                                  else None)
    {
      if field == Title {
        calls := calls + [UpdateCollection(collectionId, NameChange(pendingTitle))];
        if reply.Ok? {
          if collection.Some? {
            collection := Some(collection.value.(name := pendingTitle));
          }
          editingTitle := false;
        }
      } else {
        calls := calls + [UpdateCollection(collectionId, DescriptionChange(pendingDescription))];
        if reply.Ok? {
          if collection.Some? {
            collection := Some(collection.value.(description := Some(pendingDescription)));
          }
          editingDescription := false;
        }
      }
    }

    /** `handleCancel`: leaves edit mode for that field and clears its pending text. */
    method Cancel(field: Field)
      modifies this`editingTitle, this`editingDescription, this`pendingTitle, this`pendingDescription
      ensures field == Title ==> !editingTitle && pendingTitle == ""
                                 && editingDescription == old(editingDescription)
                                 && pendingDescription == old(pendingDescription)
      ensures field == Description ==> !editingDescription && pendingDescription == ""
                                       && editingTitle == old(editingTitle) && pendingTitle == old(pendingTitle)
    {
      if field == Title {
        editingTitle := false;
        pendingTitle := "";
      } else {
        editingDescription := false;
        pendingDescription := "";
      }
    }
  }
}
