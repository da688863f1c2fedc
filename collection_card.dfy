/** components/collections/CollectionCard.tsx: one collection in a list, with the owner's
    delete confirmation. */
module CollectionCard {
  import opened Domain
  import opened Effects

  /** `isOwner`: the connected key equals the creator; with no wallet nobody owns the card. */
  function IsOwner(wallet: Wallet, c: Collection): (r: bool)
    ensures r <==> wallet == Some(c.created_by)
  {
    match wallet
    case None => false
    case Some(key) => key == c.created_by
  }

  /** `collection.description || 'No description'`: an absent or empty description shows the
      placeholder. */
  function DescriptionText(c: Collection): (t: string)
    ensures c.description.Some? && c.description.value != "" ==> t == c.description.value
    ensures c.description.None? || c.description.value == "" ==> t == "No description"
    ensures t != ""
  {
    if c.description.Some? && c.description.value != "" then c.description.value else "No description"
  }

  /** `collection.datasets?.length || 0`: the number of member datasets, zero when the list is
      absent. */
  function DisplayedCount(c: Collection): (n: nat)
    ensures c.datasets.None? ==> n == 0
    ensures c.datasets.Some? ==> n == |c.datasets.value|
    ensures n == 0 ==> forall id: string :: !HasMember(c, id)
  {
    if c.datasets.None? then 0 else |c.datasets.value|
  }

  class CollectionCardView {
    const collection: Collection
    var wallet: Wallet
    var showDeleteDialog: bool
    var isDeleting: bool
    var calls: seq<Call>
    /** The `onUpdate` calls made to the parent. */
    var events: seq<Event>

    constructor (c: Collection, w: Wallet)
      ensures collection == c && wallet == w && !showDeleteDialog && !isDeleting
      ensures calls == [] && events == []
    {
      collection := c;
      wallet := w;
      showDeleteDialog := false;
      isDeleting := false;
      calls := [];
      events := [];
    }

    /** The trash button is rendered for the owner only. */
    function DeleteControlShown(): (b: bool)
      reads this
      ensures b <==> wallet == Some(collection.created_by)
    {
      IsOwner(wallet, collection)
    }

    /** Both dialog buttons are disabled while the delete is in flight. */
    function DialogButtonsDisabled(): (b: bool)
      reads this
      ensures b <==> isDeleting
    {
      isDeleting
    }

    /** A click on the trash button opens the confirmation; a card that shows no button
        cannot be clicked there, so nothing changes for a non-owner. */
    method TrashClick()
      modifies this`showDeleteDialog
      ensures showDeleteDialog == (old(showDeleteDialog) || DeleteControlShown())
    {
      if DeleteControlShown() {
        showDeleteDialog := true;
      }
    }

    /** The confirmation's Cancel: ignored while deleting, otherwise it closes the dialog. */
    method CancelClick()
      modifies this`showDeleteDialog
      ensures showDeleteDialog == (old(showDeleteDialog) && isDeleting)
    {
      if !isDeleting {
        showDeleteDialog := false;
      }
    }

    /** `handleDelete` up to its `await`: deleting starts and the request goes out. The dialog
        is kept open here; an alert dialog's action button that closes the dialog on click would
        close it at this point instead, which `SettleDelete` does in any case. */
    method BeginDelete()
      requires !DialogButtonsDisabled()
      modifies this`isDeleting, this`calls
      ensures isDeleting && DialogButtonsDisabled()
      ensures calls == old(calls) + [DeleteCollection(collection.id)]
    {
      isDeleting := true;
      calls := calls + [DeleteCollection(collection.id)];
    }

    /** The rest of the handler: only a success tells the parent to refresh; either way
        deleting ends and the dialog closes. */
    method SettleDelete(reply: Reply<()>)
      requires isDeleting
      modifies this`isDeleting, this`showDeleteDialog, this`events
      ensures !isDeleting && !showDeleteDialog
      ensures events == old(events) + (if reply.Ok? then [Updated] else [])
    {
      if reply.Ok? {
        events := events + [Updated];
      }
      isDeleting := false;
      showDeleteDialog := false;
    }

    /** The whole confirmation click, both phases in sequence. */
    method HandleDelete(reply: Reply<()>)
      requires !DialogButtonsDisabled()
      modifies this`isDeleting, this`showDeleteDialog, this`calls, this`events
      ensures !isDeleting && !showDeleteDialog
      ensures calls == old(calls) + [DeleteCollection(collection.id)]
      ensures events == old(events) + (if reply.Ok? then [Updated] else [])
    {
      BeginDelete();
      SettleDelete(reply);
    }
  }
}
