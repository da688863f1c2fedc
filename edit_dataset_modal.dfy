/** components/EditDatasetModal.tsx: editing an existing dataset's name, description and
    category. */
module EditDatasetModal {
  import opened Text
  import opened Domain
  import opened Effects

  const WalletRequired := "Please connect your wallet first"
  const NameRequired := "Dataset name is required"
  const UpdateFailed := "Failed to update dataset"

  datatype EditForm = EditForm(name: string, description: string, category_tags: seq<string>)

  /** The form starts from the dataset being edited. */
  function InitialForm(d: Dataset): (f: EditForm)
    ensures f.name == d.name && f.description == d.description && f.category_tags == d.category_tags
  {
    EditForm(d.name, d.description, d.category_tags)
  }

  /** The two guards of `handleSubmit`: the wallet is checked before the name. */
  function Validate(wallet: Wallet, f: EditForm): (r: Option<string>)
    ensures wallet.None? ==> r == Some(WalletRequired)
    ensures wallet.Some? && IsBlank(f.name) ==> r == Some(NameRequired)
    ensures r.None? <==> wallet.Some? && !IsBlank(f.name)
  {
    if wallet.None? then Some(WalletRequired)
    else if IsBlank(f.name) then Some(NameRequired)
    else None
  }

  /** The `updateDataset` changes: the form fields as entered (the name is not trimmed) and the
      connected wallet as `created_by`. */
  function Payload(walletKey: string, f: EditForm): (u: DatasetUpdate)
    ensures u.name == f.name && u.description == f.description && u.category_tags == f.category_tags
    ensures u.created_by == walletKey
  {
    DatasetUpdate(f.name, f.description, f.category_tags, walletKey)
  }

  class EditDatasetModalView {
    const dataset: Dataset
    var wallet: Wallet
    var isLoading: bool
    var error: Option<string>
    var formData: EditForm
    var calls: seq<Call>
    /** The `onUpdate` and `onClose` calls made to the parent. */
    var events: seq<Event>

    constructor (d: Dataset, w: Wallet)
      ensures dataset == d && wallet == w && !isLoading && error == None
      ensures formData == InitialForm(d) && calls == [] && events == []
    {
      dataset := d;
      wallet := w;
      isLoading := false;
      error := None;
      formData := InitialForm(d);
      calls := [];
      events := [];
    }

    /** The name and description inputs replace one field each. */
    method Edit(f: EditForm)
      modifies this`formData
      ensures formData == f
    {
      formData := f;
    }

    /** The category select: the tags become the one chosen value. */
    method SelectCategory(value: string)
      modifies this`formData
      ensures formData == old(formData).(category_tags := [value])
    {
      formData := formData.(category_tags := [value]);
    }

    /** The dialog's `onOpenChange`: closing asks the parent to close; opening does nothing here. */
    method OpenChange(open: bool)
      modifies this`events
      ensures events == old(events) + (if open then [] else [Closed])
    {
      if !open {
        events := events + [Closed];
      }
    }

    /** The Cancel button, disabled while the update is in flight, asks the parent to close. */
    method CancelClick()
      requires !isLoading
      modifies this`events
      ensures events == old(events) + [Closed]
    {
      events := events + [Closed];
    }

    /** `handleSubmit`: a failed guard shows its message and sends nothing; otherwise the update
        is sent, success tells the parent to refresh and then to close, and failure shows the
        error without calling the parent. Loading ends false after a sent update. */
    method HandleSubmit(reply: Reply<()>)
      modifies this`isLoading, this`error, this`calls, this`events
      ensures Validate(wallet, formData).Some? ==>
                error == Validate(wallet, formData) && calls == old(calls) && events == old(events)
                && isLoading == old(isLoading)
      ensures Validate(wallet, formData).None? ==>
                calls == old(calls) + [UpdateDataset(dataset.id, Payload(wallet.value, formData))] && !isLoading
      ensures Validate(wallet, formData).None? && reply.Ok? ==>
                events == old(events) + [Updated, Closed] && error == None
      ensures Validate(wallet, formData).None? && reply.Threw? ==>
                events == old(events) && error == Some(MessageOr(reply.thrown, UpdateFailed))
    {
      var problem := Validate(wallet, formData);
      if problem.Some? {
        error := problem;
        return;
      }
      var request := UpdateDataset(dataset.id, Payload(wallet.value, formData));
      isLoading := true;
      error := None;
      calls := calls + [request];
      if reply.Ok? {
        events := events + [Updated, Closed];
      } else {
        error := Some(MessageOr(reply.thrown, UpdateFailed));
      }
      isLoading := false;
    }
  }
}
