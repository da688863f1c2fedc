/** components/InlineEdit.tsx: click-to-edit text with save and cancel. */
module InlineEdit {
  import opened Domain
  import opened Effects

  const Placeholder := "No description"

  /** `value || 'No description'`. */
  function DisplayText(value: string): (t: string)
    ensures value != "" ==> t == value
    ensures value == "" ==> t == Placeholder
    ensures t != ""
  {
    if value == "" then Placeholder else value
  }

  class InlineEditView {
    /** The current `value` and `isOwner` props. */
    var value: string
    var isOwner: bool
    var isEditing: bool
    var pendingValue: string
    /** The `onSave` calls made to the parent. */
    var events: seq<Event>

    /** The pending text starts as the value at mount time. */
    constructor (v: string, owner: bool)
      ensures value == v && isOwner == owner && !isEditing && pendingValue == v && events == []
    {
      value := v;
      isOwner := owner;
      isEditing := false;
      pendingValue := v;
      events := [];
    }

    /** A new `value` prop from the parent; the pending text is not re-seeded. */
    method ValueChanged(v: string)
      modifies this`value
      ensures value == v
    {
      value := v;
    }

    /** Clicking the displayed value enters edit mode, for the owner only. */
    method Click()
      modifies this`isEditing
      ensures isEditing == (old(isEditing) || isOwner)
    {
      if isOwner {
        isEditing := true;
      }
    }

    method Type(text: string)
      modifies this`pendingValue
      ensures pendingValue == text
    {
      pendingValue := text;
    }

    /** `handleSave`: the pending text goes to the parent; success leaves edit mode, failure
        stays in it with the pending text reset to the current value. */
    method Save(reply: Reply<()>)
      modifies this`isEditing, this`pendingValue, this`events
      ensures events == old(events) + [SaveRequested(old(pendingValue))]
      ensures reply.Ok? ==> !isEditing && pendingValue == old(pendingValue)
      ensures reply.Threw? ==> isEditing == old(isEditing) && pendingValue == value
    {
      events := events + [SaveRequested(pendingValue)];
      if reply.Ok? {
        isEditing := false;
      } else {
        pendingValue := value;
      }
    }

    /** `handleCancel`: leaves edit mode and discards the pending text. */
    method Cancel()
      modifies this`isEditing, this`pendingValue
      ensures !isEditing && pendingValue == value
    {
      isEditing := false;
      pendingValue := value;
    }
  }
}
