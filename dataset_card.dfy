/** components/DatasetCard.tsx: the card's ownership badge, liked status and like button. */
module DatasetCard {
  import opened Domain
  import opened Effects

  const ConnectToLike := "Please connect your wallet to like datasets"
  const ToggleFailed := "Failed to toggle like. Please try again."

  /** `isOwner`: the connected key equals the creator; with no wallet the left side is
      `undefined`, which equals no string. */
  function IsOwner(wallet: Wallet, d: Dataset): (r: bool)
    ensures r <==> wallet == Some(d.created_by)
    ensures wallet.None? ==> !r
  {
    match wallet
    case None => false
    case Some(key) => key == d.created_by
  }

  class DatasetCardView {
    const dataset: Dataset
    var wallet: Wallet
    var likes: int
    var isLiked: bool
    var isLoading: bool
    var showAddToCollection: bool
    var calls: seq<Call>
    /** The alerts shown. */
    var events: seq<Event>

    constructor (d: Dataset, w: Wallet)
      ensures dataset == d && wallet == w && likes == d.likes && !isLiked && !isLoading
      ensures !showAddToCollection && calls == [] && events == []
    {
      dataset := d;
      wallet := w;
      likes := d.likes;
      isLiked := false;
      isLoading := false;
      showAddToCollection := false;
      calls := [];
      events := [];
    }

    /** The collection button is rendered only with a wallet and when the parent does not hide it. */
    function ShowCollectionButton(hideCollectionButton: bool): (b: bool)
      reads this
      ensures b <==> wallet.Some? && !hideCollectionButton
    {
      wallet != None && !hideCollectionButton
    }

    /** `checkIfLiked`: with a wallet, the liked flag becomes membership of this dataset in the
        wallet's liked set; without one, or when the fetch fails, it stays as it is. */
    method CheckIfLiked(reply: Reply<set<string>>)
      modifies this`isLiked, this`calls
      ensures wallet.None? ==> isLiked == old(isLiked) && calls == old(calls)
      ensures wallet.Some? ==> calls == old(calls) + [GetLikedDatasets(wallet.value)]
      ensures wallet.Some? && reply.Ok? ==> (isLiked <==> dataset.id in reply.value)
      ensures wallet.Some? && reply.Threw? ==> isLiked == old(isLiked)
    {
      if wallet.None? {
        return;
      }
      calls := calls + [GetLikedDatasets(wallet.value)];
      if reply.Ok? {
        isLiked := dataset.id in reply.value;
      }
    }

    /** `handleLikeClick` up to its `await`: without a wallet an alert and nothing else;
        otherwise loading starts and the toggle request goes out. The button is disabled
        while a toggle is in flight. */
    method BeginLike()
      requires !isLoading
      modifies this`isLoading, this`calls, this`events
      ensures wallet.None? ==>
                events == old(events) + [Alerted(ConnectToLike)] && calls == old(calls) && isLoading == old(isLoading)
      ensures wallet.Some? ==>
                isLoading && calls == old(calls) + [ToggleLike(dataset.id, wallet.value)] && events == old(events)
    {
      if wallet.None? {
        events := events + [Alerted(ConnectToLike)];
        return;
      }
      isLoading := true;
      calls := calls + [ToggleLike(dataset.id, wallet.value)];
    }

    /** The rest of the handler: success takes the server's count and flips the liked flag;
        failure alerts and changes neither (nothing is updated before the reply). */
    method SettleLike(reply: Reply<int>)
      requires wallet.Some? && isLoading
      modifies this`likes, this`isLiked, this`isLoading, this`events
      ensures !isLoading
      ensures reply.Ok? ==> likes == reply.value && isLiked == !old(isLiked) && events == old(events)
      ensures reply.Threw? ==>
                likes == old(likes) && isLiked == old(isLiked) && events == old(events) + [Alerted(ToggleFailed)]
    {
      match reply {
        case Ok(newLikeCount) =>
          likes := newLikeCount;
          isLiked := !isLiked;
        case Threw(_) =>
          events := events + [Alerted(ToggleFailed)];
      }
      isLoading := false;
    }

    /** The whole click, both phases in sequence. */
    method LikeClick(reply: Reply<int>)
      requires !isLoading
      modifies this`likes, this`isLiked, this`isLoading, this`calls, this`events
      ensures wallet.None? ==>
                likes == old(likes) && isLiked == old(isLiked) && calls == old(calls) && isLoading == old(isLoading)
                && events == old(events) + [Alerted(ConnectToLike)]
      ensures wallet.Some? ==> !isLoading && calls == old(calls) + [ToggleLike(dataset.id, wallet.value)]
      ensures wallet.Some? ==> events == old(events) + (if reply.Threw? then [Alerted(ToggleFailed)] else [])
      ensures wallet.Some? && reply.Ok? ==> likes == reply.value && isLiked == !old(isLiked)
      ensures wallet.Some? && reply.Threw? ==> likes == old(likes) && isLiked == old(isLiked)
    {
      BeginLike();
      if wallet.Some? {
        SettleLike(reply);
      }
    }

    method OpenAddToCollection()
      modifies this`showAddToCollection
      ensures showAddToCollection
    {
      showAddToCollection := true;
    }
  }
}
