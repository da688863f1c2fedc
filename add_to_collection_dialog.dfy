/** components/collections/AddToCollectionDialog.tsx: toggling one dataset's membership in the
    connected user's collections, with the dataset's collection counter adjusted in place. */
module AddToCollectionDialog {
  import opened Domain
  import opened Effects

  /** `Math.max(0, count - 1)`: the counter after a removal never goes below zero. */
  function DecrementedCount(n: int): (r: int)
    ensures r >= 0
    ensures n > 0 ==> r == n - 1
    ensures n <= 0 ==> r == 0
  {
    if n - 1 > 0 then n - 1 else 0
  }

  /** Adding and then removing restores a non-negative counter; removing from zero stays at zero. */
  lemma AddThenRemove(n: int)
    ensures n >= 0 ==> DecrementedCount(n + 1) == n
    ensures DecrementedCount(0) == 0
  {
  }

  /** The dataset object the dialog was given; it is shared with the card that opened the dialog,
      which sees the counter change. */
  class LiveDataset {
    const id: string
    var collection_count: int

    constructor (datasetId: string, count: int)
      ensures id == datasetId && collection_count == count
    {
      id := datasetId;
      collection_count := count;
    }
  }

  /** What a click does for a collection: remove when the dataset is a member, add otherwise. */
  function ToggleCall(c: Collection, datasetId: string): (call: Call)
    ensures HasMember(c, datasetId) ==> call == RemoveFromCollection(c.id, datasetId)
    ensures !HasMember(c, datasetId) ==> call == AddToCollection(c.id, datasetId)
  {
    if HasMember(c, datasetId) then RemoveFromCollection(c.id, datasetId) else AddToCollection(c.id, datasetId)
  }

  /** The counter after a successful toggle. */
  function CountAfter(c: Collection, datasetId: string, count: int): (r: int)
    ensures HasMember(c, datasetId) ==> r == DecrementedCount(count)
    ensures !HasMember(c, datasetId) ==> r == count + 1
    ensures count >= 0 ==> r >= 0
  {
    if HasMember(c, datasetId) then DecrementedCount(count) else count + 1
  }

  class AddToCollectionDialogView {
    const dataset: LiveDataset
    var wallet: Wallet
    var collections: seq<Collection>
    var loading: bool
    /** The id of the collection whose toggle is in flight. */
    var processing: Option<string>
    var showCreateModal: bool
    var calls: seq<Call>

    constructor (d: LiveDataset, w: Wallet)
      ensures dataset == d && wallet == w && collections == [] && loading && processing == None
      ensures !showCreateModal && calls == []
    {
      dataset := d;
      wallet := w;
      collections := [];
      loading := true;
      processing := None;
      showCreateModal := false;
      calls := [];
    }

    /** Every collection button is disabled while a toggle is in flight. */
    function ButtonDisabled(c: Collection): (b: bool)
      reads this
      ensures b <==> processing.Some?
    {
      processing != None
    }

    /** `loadCollections`; a failure only shows a toast and keeps the current list. */
    method LoadCollections(reply: Reply<seq<Collection>>)
      requires wallet.Some?
      modifies this`collections, this`loading, this`calls
      ensures calls == old(calls) + [GetUserCollections(wallet.value)]
      ensures collections == if reply.Ok? then reply.value else old(collections)
      ensures !loading
    {
      loading := true;
      calls := calls + [GetUserCollections(wallet.value)];
      if reply.Ok? {
        collections := reply.value;
      }
      loading := false;
    }

    /** The effect that runs when the dialog opens: it loads only with a wallet. */
    method Opened(open: bool, reply: Reply<seq<Collection>>)
      modifies this`collections, this`loading, this`calls
      ensures wallet.Some? && open ==>
                calls == old(calls) + [GetUserCollections(wallet.value)]
                && collections == (if reply.Ok? then reply.value else old(collections)) && !loading
      ensures !(wallet.Some? && open) ==>
                calls == old(calls) && collections == old(collections) && loading == old(loading)
    {
      if wallet.Some? && open {
        LoadCollections(reply);
      }
    }

    /** `handleCollectionClick` up to its first `await`: without a wallet nothing happens;
        otherwise the clicked collection is marked as processing and the toggle request goes out. */
    method BeginClick(c: Collection)
      modifies this`processing, this`calls
      ensures wallet.None? ==> processing == old(processing) && calls == old(calls)
      ensures wallet.Some? ==> processing == Some(c.id) && calls == old(calls) + [ToggleCall(c, dataset.id)]
      ensures wallet.Some? ==> forall other: Collection :: ButtonDisabled(other)
    {
      if wallet.None? {
        return;
      }
      processing := Some(c.id);
      calls := calls + [ToggleCall(c, dataset.id)];
    }

    /** The rest of the handler: on success the dataset's counter moves by one (never below
        zero) and the collections are reloaded; on failure the counter is untouched and nothing
        is reloaded. Either way `processing` is cleared. */
    method SettleClick(c: Collection, toggled: Reply<()>, reload: Reply<seq<Collection>>)
      requires wallet.Some? && processing == Some(c.id)
      modifies this`processing, this`collections, this`loading, this`calls, dataset`collection_count
      ensures processing == None
      ensures toggled.Ok? ==>
                dataset.collection_count == CountAfter(c, dataset.id, old(dataset.collection_count))
                && calls == old(calls) + [GetUserCollections(wallet.value)]
                && collections == (if reload.Ok? then reload.value else old(collections)) && !loading
      ensures toggled.Threw? ==>
                dataset.collection_count == old(dataset.collection_count)
                && calls == old(calls) && collections == old(collections) && loading == old(loading)
    {
      if toggled.Ok? {
        if HasMember(c, dataset.id) {
          dataset.collection_count := DecrementedCount(dataset.collection_count);
        } else {
          dataset.collection_count := dataset.collection_count + 1;
        }
        LoadCollections(reload);
      }
      processing := None;
    }

    /** The whole click, both phases in sequence. */
    method Click(c: Collection, toggled: Reply<()>, reload: Reply<seq<Collection>>)
      requires processing == None
      modifies this`processing, this`collections, this`loading, this`calls, dataset`collection_count
      ensures processing == None
      ensures wallet.None? ==>
                calls == old(calls) && dataset.collection_count == old(dataset.collection_count)
                && collections == old(collections) && loading == old(loading)
      ensures wallet.Some? && toggled.Ok? ==>
                dataset.collection_count == CountAfter(c, dataset.id, old(dataset.collection_count))
                && calls == old(calls) + [ToggleCall(c, dataset.id), GetUserCollections(wallet.value)]
                && collections == (if reload.Ok? then reload.value else old(collections)) && !loading
      ensures wallet.Some? && toggled.Threw? ==>
                dataset.collection_count == old(dataset.collection_count)
                && calls == old(calls) + [ToggleCall(c, dataset.id)] && collections == old(collections)
                && loading == old(loading)
    {
      BeginClick(c);
      if wallet.Some? {
        SettleClick(c, toggled, reload);
      }
    }

    /** `handleCreateSuccess`: reload the collections and close the create dialog. */
    method CreateSucceeded(reply: Reply<seq<Collection>>)
      requires wallet.Some?
      modifies this`collections, this`loading, this`calls, this`showCreateModal
      ensures calls == old(calls) + [GetUserCollections(wallet.value)]
      ensures collections == (if reply.Ok? then reply.value else old(collections))
      ensures !loading && !showCreateModal
    {
      LoadCollections(reply);
      showCreateModal := false;
    }
  }
}
