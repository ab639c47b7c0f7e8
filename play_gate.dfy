/** The play gate of `hooks/useOnPlay.ts`: without a user the login prompt
    opens, without a subscription the subscribe prompt opens, and only then
    is the clicked track made active with the whole list as the queue. */
module PlayGate {

  import opened Wrappers
  import opened Types
  import opened Player
  import opened Modals

  /** The three outcomes of the user-then-subscription check. */
  datatype Gate = AskToSignIn | AskToSubscribe | Allow

  /** The check, user first. Signing in is asked for whenever there is no
      user, whatever the subscription; the subscribe prompt only for a
      signed-in user without one; and access is allowed only with both. */
  function Decide(user: Option<User>, subscription: Option<Subscription>): (g: Gate)
    ensures g == AskToSignIn <==> user.None?
    ensures g == AskToSubscribe <==> user.Some? && subscription.None?
    ensures g == Allow <==> user.Some? && subscription.Some?
  {
    if user.None? then AskToSignIn
    else if subscription.None? then AskToSubscribe
    else Allow
  }

  /** `songs.map((song) => song.id)`: the ids in the same order. */
  function SongIds(songs: seq<Song>): (ids: seq<string>)
    ensures |ids| == |songs|
    ensures forall i :: 0 <= i < |songs| ==> ids[i] == songs[i].id
  {
    if songs == [] then [] else [songs[0].id] + SongIds(songs[1..])
  }

  /** Every song's id is in the queue built from the list. */
  lemma SongIdInQueue(songs: seq<Song>, k: int)
    requires 0 <= k < |songs|
    ensures songs[k].id in SongIds(songs)
  {
    assert SongIds(songs)[k] == songs[k].id;
  }

  /** The `onPlay(id)` closure over `songs`. The id is not checked against
      the list, so the active id may lie outside the new queue. */
  method OnPlay(player: PlayerStore, authModal: AuthModal, subscribeModal: SubscribeModal,
                user: Option<User>, subscription: Option<Subscription>,
                songs: seq<Song>, id: string)
    modifies player, authModal, subscribeModal
    ensures Decide(user, subscription) == AskToSignIn ==>
      authModal.isOpen && subscribeModal.isOpen == old(subscribeModal.isOpen)
    ensures Decide(user, subscription) == AskToSubscribe ==>
      subscribeModal.isOpen && authModal.isOpen == old(authModal.isOpen)
    ensures Decide(user, subscription) != Allow ==>
      player.ids == old(player.ids) && player.activeId == old(player.activeId)
    ensures Decide(user, subscription) == Allow ==>
      && player.activeId == Some(id)
      && player.ids == SongIds(songs)
      && authModal.isOpen == old(authModal.isOpen)
      && subscribeModal.isOpen == old(subscribeModal.isOpen)
  {
    if user.None? {
      authModal.OnOpen();
      return;
    }
    if subscription.None? {
      subscribeModal.OnOpen();
      return;
    }
    player.SetId(id);
    player.SetIds(SongIds(songs));
  }
}
