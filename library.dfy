/** The library panel of `components/Library.tsx`: the add button opens
    exactly one of the three prompts, and clicking a listed track plays it
    with the whole library as the queue. */
module Library {

  import opened Wrappers
  import opened Types
  import opened Player
  import opened Modals
  import opened PlayGate
  import Navigation

  /** The add button's `onClick`: the login prompt without a user, the
      subscribe prompt without a subscription, otherwise the upload dialog.
      The other two stores are not touched. */
  method OnAddClick(authModal: AuthModal, subscribeModal: SubscribeModal, uploadModal: UploadModal,
                    user: Option<User>, subscription: Option<Subscription>)
    modifies authModal, subscribeModal, uploadModal
    ensures authModal.isOpen == (old(authModal.isOpen) || Decide(user, subscription) == AskToSignIn)
    ensures subscribeModal.isOpen == (old(subscribeModal.isOpen) || Decide(user, subscription) == AskToSubscribe)
    ensures uploadModal.isOpen == (old(uploadModal.isOpen) || Decide(user, subscription) == Allow)
  {
    if user.None? {
      authModal.OnOpen();
      return;
    }
    if subscription.None? {
      subscribeModal.OnOpen();
      return;
    }
    uploadModal.OnOpen();
  }

  /** A click on the `k`-th listed track: `onPlay(songs[k].id)` over the
      library's songs. Because the id comes from the list, an allowed click
      always leaves the active id inside the queue. */
  method OnItemClick(player: PlayerStore, authModal: AuthModal, subscribeModal: SubscribeModal,
                     user: Option<User>, subscription: Option<Subscription>,
                     songs: seq<Song>, k: nat)
    requires k < |songs|
    modifies player, authModal, subscribeModal
    ensures Decide(user, subscription) == AskToSignIn ==>
      authModal.isOpen && subscribeModal.isOpen == old(subscribeModal.isOpen)
    ensures Decide(user, subscription) == AskToSubscribe ==>
      subscribeModal.isOpen && authModal.isOpen == old(authModal.isOpen)
    ensures Decide(user, subscription) != Allow ==>
      player.ids == old(player.ids) && player.activeId == old(player.activeId)
    ensures Decide(user, subscription) == Allow ==>
      && player.activeId == Some(songs[k].id)
      && player.ids == SongIds(songs)
      && Navigation.InQueue(player.ids, player.activeId)
      && authModal.isOpen == old(authModal.isOpen)
      && subscribeModal.isOpen == old(subscribeModal.isOpen)
  {
    OnPlay(player, authModal, subscribeModal, user, subscription, songs, songs[k].id);
    if Decide(user, subscription) == Allow {
      SongIdInQueue(songs, k);
    }
  }
}
