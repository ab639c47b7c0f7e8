/** The playback queue store (`hooks/usePlayer.ts`): the ordered queue of track
    ids and the optional active id, overwritten wholesale by its setters. */
module Player {

  import opened Wrappers

  class PlayerStore {
    var ids: seq<string>
    var activeId: Option<string>

    /** A fresh store holds an empty queue and no active track. */
    constructor ()
      ensures ids == [] && activeId == None
    {
      ids := [];
      activeId := None;
    }

    /** `setId`: the active id becomes `id`, whether or not the queue holds it;
        the queue is untouched. The new value does not depend on the old one,
        so the last call wins. */
    method SetId(id: string)
      modifies this
      ensures activeId == Some(id)
      ensures ids == old(ids)
    {
      activeId := Some(id);
    }

    /** `setIds`: the queue becomes exactly `newIds`, in order; the active id is
        kept even when it is no longer a member of the queue. */
    method SetIds(newIds: seq<string>)
      modifies this
      ensures ids == newIds
      ensures activeId == old(activeId)
    {
      ids := newIds;
    }

    /** `reset`: back to the initial state, whatever the state was, so a
        second reset changes nothing. */
    method Reset()
      modifies this
      ensures ids == [] && activeId == None
    {
      ids := [];
      activeId := None;
    }
  }

  /** `setId` does not validate against the queue: a store can end up with an
      active id that is not in its queue. */
  method OrphanedSelection() returns (p: PlayerStore)
    ensures p.activeId.Some? && p.activeId.value !in p.ids
  {
    p := new PlayerStore();
    p.SetIds(["a", "b"]);
    p.SetId("z");
  }

  /** Resetting twice leaves the same state as resetting once. */
  method ResetTwice(p: PlayerStore)
    modifies p
    ensures p.ids == [] && p.activeId == None
  {
    p.Reset();
    ghost var once := (p.ids, p.activeId);
    p.Reset();
    assert (p.ids, p.activeId) == once;
  }
}
