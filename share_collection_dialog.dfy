/** components/collections/ShareCollectionDialog.tsx: sharing a collection with another wallet. */
module ShareCollectionDialog {
  import opened Text
  import opened Domain
  import opened Effects

  /** The address `handleShare` sends: none when the trimmed input is empty, otherwise the
      trimmed input. */
  function ShareTarget(walletAddress: string): Option<string>
  {
    var t := Trim(walletAddress);
    if t == [] then None else Some(t)
  }

  /** A blank input is exactly one that sends nothing. */
  lemma ShareTargetBlank(walletAddress: string)
    ensures ShareTarget(walletAddress).None? <==> IsBlank(walletAddress)
  {
    BlankIffTrimEmpty(walletAddress);
  }

  /** A sent address is non-empty and already has no whitespace at either end. */
  lemma ShareTargetTrimmed(walletAddress: string)
    ensures ShareTarget(walletAddress).Some? ==>
              ShareTarget(walletAddress).value != [] && Trim(ShareTarget(walletAddress).value) == ShareTarget(walletAddress).value
  {
    TrimIdempotent(walletAddress);
  }

  class ShareCollectionDialogView {
    const collection: Collection
    var loading: bool
    var walletAddress: string
    var calls: seq<Call>
    /** The `onOpenChange` calls made to the parent. */
    var events: seq<Event>

    constructor (c: Collection)
      ensures collection == c && !loading && walletAddress == "" && calls == [] && events == []
    {
      collection := c;
      loading := false;
      walletAddress := "";
      calls := [];
      events := [];
    }

    /** The share button is disabled while loading or while the address is blank. */
    function ShareDisabled(): (b: bool)
      reads this
      ensures b <==> loading || IsBlank(walletAddress)
    {
      BlankIffTrimEmpty(walletAddress);
      loading || Trim(walletAddress) == []
    }

    method Type(text: string)
      modifies this`walletAddress
      ensures walletAddress == text
    {
      walletAddress := text;
    }

    /** The Cancel button asks the parent to close the dialog; the typed address is kept. */
    method CancelClick()
      modifies this`events
      ensures events == old(events) + [OpenChanged(false)]
    {
      events := events + [OpenChanged(false)];
    }

    /** `handleShare`: a blank address sends nothing; otherwise the trimmed address is sent,
        success clears the input and closes the dialog, and failure keeps both. Loading ends
        false after a sent request. */
    method HandleShare(reply: Reply<()>)
      modifies this`loading, this`walletAddress, this`calls, this`events
      ensures ShareTarget(old(walletAddress)).None? ==>
                loading == old(loading) && walletAddress == old(walletAddress)
                && calls == old(calls) && events == old(events)
      ensures ShareTarget(old(walletAddress)).Some? ==>
                !loading && calls == old(calls) + [ShareCollection(collection.id, ShareTarget(old(walletAddress)).value)]
      ensures ShareTarget(old(walletAddress)).Some? && reply.Ok? ==>
                walletAddress == "" && events == old(events) + [OpenChanged(false)]
      ensures ShareTarget(old(walletAddress)).Some? && reply.Threw? ==>
                walletAddress == old(walletAddress) && events == old(events)
    {
      var target := ShareTarget(walletAddress);
      if target.None? {
        return;
      }
      loading := true;
      calls := calls + [ShareCollection(collection.id, target.value)];
      if reply.Ok? {
        walletAddress := "";
        events := events + [OpenChanged(false)];
      }
      loading := false;
    }
  }
}
