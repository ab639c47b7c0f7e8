/** The like toggle of `components/LikeButton.tsx`. The row lookup on mount
    and the insert or delete on click are backend calls; their results are
    parameters here. */
module Likes {

  import opened Wrappers
  import opened Types
  import opened Modals

  /** The `liked_songs` request a click issues, if any. */
  datatype LikeRequest =
    | NoRequest
    | DeleteLike(userId: string, songId: string)
    | InsertLike(songId: string, userId: string)

  class LikeButton {
    const songId: string
    var isLiked: bool

    /** A button starts unliked. */
    constructor (songId: string)
      ensures this.songId == songId && !isLiked
    {
      this.songId := songId;
      isLiked := false;
    }

    /** The mount effect. The lookup is issued only for a user whose id is
        truthy (`user?.id`), and `rowFound` says it came back with a row and
        no error. It can only turn the flag on. */
    method FetchLiked(user: Option<User>, rowFound: bool) returns (queried: bool)
      modifies this`isLiked
      ensures queried <==> user.Some? && user.value.id != ""
      ensures isLiked == (old(isLiked) || (queried && rowFound))
    {
      queried := user.Some? && user.value.id != "";
      if queried && rowFound {
        isLiked := true;
      }
    }

    /** `handleLike`, with `result` the outcome of the one request issued.
        A rejected request (`Threw`) escapes the handler: no notice, no
        change. */
    method HandleLike(user: Option<User>, authModal: AuthModal, result: Outcome)
      returns (request: LikeRequest, notice: Option<Notice>)
      modifies this`isLiked, authModal
      ensures user.None? ==>
        authModal.isOpen && request == NoRequest && notice == None && isLiked == old(isLiked)
      ensures user.Some? ==> authModal.isOpen == old(authModal.isOpen)
      ensures user.Some? && old(isLiked) ==> request == DeleteLike(user.value.id, songId)
      ensures user.Some? && !old(isLiked) ==> request == InsertLike(songId, user.value.id)
      ensures user.Some? && result == Ok ==> isLiked == !old(isLiked)
      ensures user.Some? && result == Ok ==>
        notice == if old(isLiked) then None else Some(SuccessToast("Success"))
      ensures user.Some? && result.Error? ==>
        isLiked == old(isLiked) && notice == Some(ErrorToast(result.message))
      ensures user.Some? && result.Threw? ==> isLiked == old(isLiked) && notice == None
    {
      request, notice := NoRequest, None;
      if user.None? {
        authModal.OnOpen();
        return;
      }
      if isLiked {
        request := DeleteLike(user.value.id, songId);
        match result {
          case Threw(_) =>
          case Error(message) =>
            notice := Some(ErrorToast(message));
          case Ok =>
            isLiked := false;
        }
      } else {
        request := InsertLike(songId, user.value.id);
        match result {
          case Threw(_) =>
          case Error(message) =>
            notice := Some(ErrorToast(message));
          case Ok =>
            isLiked := true;
            notice := Some(SuccessToast("Success"));
        }
      }
    }
  }
}
