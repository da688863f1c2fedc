/** components/collections/CreateCollectionModal.tsx: the new-collection form. */
module CreateCollectionModal {
  import opened Text
  import opened Domain
  import opened Effects

  /** The `createCollection` request: the fields exactly as typed (the name is not trimmed). */
  function Request(name: string, description: string, isPublic: bool, walletKey: string): (c: NewCollection)
    ensures c.name == name && c.description == description && c.is_public == isPublic
    ensures c.created_by == walletKey
  {
    NewCollection(name, description, isPublic, walletKey)
  }

  class CreateCollectionModalView {
    var wallet: Wallet
    var loading: bool
    var name: string
    var description: string
    var isPublic: bool
    var calls: seq<Call>
    /** The `onOpenChange` and `onSuccess` calls made to the parent. */
    var events: seq<Event>

    constructor (w: Wallet)
      ensures wallet == w && !loading && name == "" && description == "" && !isPublic
      ensures calls == [] && events == []
    {
      wallet := w;
      loading := false;
      name, description, isPublic := "", "", false;
      calls := [];
      events := [];
    }

    /** The submit button is disabled while loading or while the trimmed name is empty. */
    function SubmitDisabled(): (b: bool)
      reads this
      ensures b <==> loading || Trim(name) == []
    {
      BlankIffTrimEmpty(name);
      loading || IsBlank(name)
    }

    method Edit(n: string, d: string, p: bool)
      modifies this`name, this`description, this`isPublic
      ensures name == n && description == d && isPublic == p
    {
      name, description, isPublic := n, d, p;
    }

    /** `handleSubmit`: nothing without a wallet; otherwise the request is sent. Success clears
        the form, then closes the dialog and tells the parent; failure keeps the form and the
        dialog. Loading ends false either way. */
    method HandleSubmit(reply: Reply<()>)
      modifies this`loading, this`name, this`description, this`isPublic, this`calls, this`events
      ensures wallet.None? ==>
                loading == old(loading) && name == old(name) && description == old(description)
                && isPublic == old(isPublic) && calls == old(calls) && events == old(events)
      ensures wallet.Some? ==>
                !loading && calls == old(calls) + [CreateCollection(Request(old(name), old(description), old(isPublic), wallet.value))]
      ensures wallet.Some? && reply.Ok? ==>
                name == "" && description == "" && !isPublic
                && events == old(events) + [OpenChanged(false), Succeeded]
      ensures wallet.Some? && reply.Threw? ==>
                name == old(name) && description == old(description) && isPublic == old(isPublic)
                && events == old(events)
    {
      if wallet.None? {
        return;
      }
      loading := true;
      calls := calls + [CreateCollection(Request(name, description, isPublic, wallet.value))];
      if reply.Ok? {
        name, description, isPublic := "", "", false;
        events := events + [OpenChanged(false), Succeeded];
      }
      loading := false;
    }

    /** The Cancel button asks the parent to close the dialog; the fields are kept. */
    method CancelClick()
      modifies this`events
      ensures events == old(events) + [OpenChanged(false)]
    {
      events := events + [OpenChanged(false)];
    }
  }
}
