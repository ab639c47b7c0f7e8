/** Next/previous track selection of `components/PlayerContent.tsx`, over the
    store's `(ids, activeId)` and with JavaScript's semantics: `findIndex`
    gives the first match or -1, an out-of-range index reads `undefined`, and
    the `!song` test treats both `undefined` and `""` as missing. */
module Navigation {

  import opened Wrappers

  /** `ids.findIndex((id) => id === target)`. An absent target equals no string. */
  function FindIndex(ids: seq<string>, target: Option<string>): (r: int)
    ensures -1 <= r < |ids|
    ensures r >= 0 ==> FirstOccurrence(ids, target, r)
    ensures r == -1 <==> !InQueue(ids, target)
  {
    if |ids| == 0 then -1
    else if target == Some(ids[0]) then 0
    else
      var k := FindIndex(ids[1..], target);
      assert forall j :: 0 <= j < |ids| - 1 ==> ids[1..][j] == ids[j + 1];
      if k == -1 then -1 else k + 1
  }

  /** `ids[i]`: the element, or `undefined` when `i` is out of range. */
  function At(ids: seq<string>, i: int): (r: Option<string>)
    ensures r.Some? <==> 0 <= i < |ids|
    ensures r.Some? ==> r.value == ids[i]
  {
    if 0 <= i < |ids| then Some(ids[i]) else None
  }

  /** The value is present and is an element of the queue. */
  predicate InQueue(ids: seq<string>, v: Option<string>)
  {
    v.Some? && v.value in ids
  }

  /** Index `i` holds the first occurrence of `v` in the queue. */
  predicate FirstOccurrence(ids: seq<string>, v: Option<string>, i: int)
  {
    0 <= i < |ids| && v == Some(ids[i]) && forall j :: 0 <= j < i ==> v != Some(ids[j])
  }

  /** A queue of distinct, non-empty ids. */
  predicate WellFormedQueue(ids: seq<string>)
  {
    && (forall i :: 0 <= i < |ids| ==> ids[i] != "")
    && (forall i, j :: 0 <= i < j < |ids| ==> ids[i] != ids[j])
  }

  /** The active id after `onPlayNext`. An empty queue leaves it as it was;
      otherwise the result is always a member of the queue. */
  function NextActive(ids: seq<string>, active: Option<string>): (r: Option<string>)
    ensures |ids| == 0 ==> r == active
    ensures |ids| > 0 ==> InQueue(ids, r)
  {
    if |ids| == 0 then active
    else
      var next := At(ids, FindIndex(ids, active) + 1);
      if !Truthy(next) then Some(ids[0]) else next
  }

  /** The active id after `onPlayPrevious`, with the same guarantees. */
  function PrevActive(ids: seq<string>, active: Option<string>): (r: Option<string>)
    ensures |ids| == 0 ==> r == active
    ensures |ids| > 0 ==> InQueue(ids, r)
  {
    if |ids| == 0 then active
    else
      var previous := At(ids, FindIndex(ids, active) - 1);
      if !Truthy(previous) then Some(ids[|ids| - 1]) else previous
  }

  /** The first occurrence is the one `findIndex` reports. */
  lemma FindIndexIsFirst(ids: seq<string>, v: Option<string>, i: int)
    requires FirstOccurrence(ids, v, i)
    ensures FindIndex(ids, v) == i
  {
  }

  /** Next selects the element after the first occurrence of the active id,
      when there is one and it is not the empty string. */
  lemma NextFollowsFirstOccurrence(ids: seq<string>, active: Option<string>, i: int)
    requires FirstOccurrence(ids, active, i) && i + 1 < |ids| && ids[i + 1] != ""
    ensures NextActive(ids, active) == Some(ids[i + 1])
  {
    FindIndexIsFirst(ids, active, i);
  }

  /** Next wraps to the head of the queue when the active id's first
      occurrence is the last element or is followed by the empty string. */
  lemma NextWrapsAfterOccurrence(ids: seq<string>, active: Option<string>, i: int)
    requires FirstOccurrence(ids, active, i) && (i + 1 == |ids| || ids[i + 1] == "")
    ensures NextActive(ids, active) == Some(ids[0])
  {
    FindIndexIsFirst(ids, active, i);
  }

  /** Next starts from the head of the queue when the active id is not in it. */
  lemma NextWrapsWhenAbsent(ids: seq<string>, active: Option<string>)
    requires |ids| > 0 && !InQueue(ids, active)
    ensures NextActive(ids, active) == Some(ids[0])
  {
    assert FindIndex(ids, active) == -1;
  }

  /** Previous selects the element before the first occurrence of the active
      id, when there is one and it is not the empty string. */
  lemma PrevPrecedesFirstOccurrence(ids: seq<string>, active: Option<string>, i: int)
    requires FirstOccurrence(ids, active, i) && 1 <= i && ids[i - 1] != ""
    ensures PrevActive(ids, active) == Some(ids[i - 1])
  {
    FindIndexIsFirst(ids, active, i);
  }

  /** Previous wraps to the end of the queue when the active id's first
      occurrence is at index 0 or is preceded by the empty string. */
  lemma PrevWrapsBeforeOccurrence(ids: seq<string>, active: Option<string>, i: int)
    requires FirstOccurrence(ids, active, i) && (i == 0 || ids[i - 1] == "")
    ensures PrevActive(ids, active) == Some(ids[|ids| - 1])
  {
    FindIndexIsFirst(ids, active, i);
  }

  /** Previous goes to the end of the queue when the active id is not in it. */
  lemma PrevWrapsWhenAbsent(ids: seq<string>, active: Option<string>)
    requires |ids| > 0 && !InQueue(ids, active)
    ensures PrevActive(ids, active) == Some(ids[|ids| - 1])
  {
    assert FindIndex(ids, active) == -1;
  }

  /** The index after `i` in a cyclic queue of length `n`. */
  function Succ(i: int, n: int): (j: int)
    requires 0 <= i < n
    ensures 0 <= j < n
  {
    if i + 1 < n then i + 1 else 0
  }

  /** The index before `i` in a cyclic queue of length `n`. */
  function Pred(i: int, n: int): (j: int)
    requires 0 <= i < n
    ensures 0 <= j < n
  {
    if i == 0 then n - 1 else i - 1
  }

  /** In a well-formed queue, next moves one place forward, cyclically. */
  lemma NextAt(ids: seq<string>, i: int)
    requires WellFormedQueue(ids) && 0 <= i < |ids|
    ensures NextActive(ids, Some(ids[i])) == Some(ids[Succ(i, |ids|)])
  {
    FindIndexIsFirst(ids, Some(ids[i]), i);
  }

  /** In a well-formed queue, previous moves one place back, cyclically. */
  lemma PrevAt(ids: seq<string>, i: int)
    requires WellFormedQueue(ids) && 0 <= i < |ids|
    ensures PrevActive(ids, Some(ids[i])) == Some(ids[Pred(i, |ids|)])
  {
    FindIndexIsFirst(ids, Some(ids[i]), i);
  }

  /** Previous undoes next on a well-formed queue holding the active id. */
  lemma PrevUndoesNext(ids: seq<string>, active: Option<string>)
    requires WellFormedQueue(ids) && InQueue(ids, active)
    ensures PrevActive(ids, NextActive(ids, active)) == active
  {
    var i :| 0 <= i < |ids| && ids[i] == active.value;
    NextAt(ids, i);
    PrevAt(ids, Succ(i, |ids|));
  }

  /** Next undoes previous on a well-formed queue holding the active id. */
  lemma NextUndoesPrev(ids: seq<string>, active: Option<string>)
    requires WellFormedQueue(ids) && InQueue(ids, active)
    ensures NextActive(ids, PrevActive(ids, active)) == active
  {
    var i :| 0 <= i < |ids| && ids[i] == active.value;
    PrevAt(ids, i);
    NextAt(ids, Pred(i, |ids|));
  }

  /** The active id after `k` presses of next (or `k` track endings). */
  function Advance(ids: seq<string>, active: Option<string>, k: nat): Option<string>
    decreases k
  {
    if k == 0 then active else Advance(ids, NextActive(ids, active), k - 1)
  }

  /** Pressing next `j + k` times is pressing it `j` times and then `k` times. */
  lemma {:induction false} AdvanceAdd(ids: seq<string>, active: Option<string>, j: nat, k: nat)
    ensures Advance(ids, active, j + k) == Advance(ids, Advance(ids, active, j), k)
    decreases j
  {
    if j > 0 {
      AdvanceAdd(ids, NextActive(ids, active), j - 1, k);
    }
  }

  /** Without reaching the end, `k` steps forward from index `i` land on
      index `i + k` of a well-formed queue. */
  lemma {:induction false} AdvanceFrom(ids: seq<string>, i: int, k: nat)
    requires WellFormedQueue(ids) && 0 <= i && i + k < |ids|
    ensures Advance(ids, Some(ids[i]), k) == Some(ids[i + k])
    decreases k
  {
    if k > 0 {
      NextAt(ids, i);
      AdvanceFrom(ids, i + 1, k - 1);
    }
  }

  /** `|ids|` applications of next bring a well-formed queue back to the
      starting track. */
  lemma NextCycle(ids: seq<string>, active: Option<string>)
    requires WellFormedQueue(ids) && InQueue(ids, active)
    ensures Advance(ids, active, |ids|) == active
  {
    var i :| 0 <= i < |ids| && ids[i] == active.value;
    CycleFrom(ids, i);
  }

  lemma CycleFrom(ids: seq<string>, i: int)
    requires WellFormedQueue(ids) && 0 <= i < |ids|
    ensures Advance(ids, Some(ids[i]), |ids|) == Some(ids[i])
  {
    // to the last element, one step round to the head, then back up to index i
    var n := |ids|;
    var toLast := n - 1 - i;
    var start, last, head := Some(ids[i]), Some(ids[n - 1]), Some(ids[0]);
    assert Advance(ids, start, toLast) == last by {
      AdvanceFrom(ids, i, toLast);
    }
    assert NextActive(ids, last) == head by {
      NextAt(ids, n - 1);
    }
    assert Advance(ids, head, i) == start by {
      AdvanceFrom(ids, 0, i);
    }
    RoundTrip(ids, start, last, head, toLast, i, n);
  }

  /** Going from `start` to `last`, one step on to `head`, and from there
      back to `start` is a round trip of `toLast + 1 + fromHead` steps. */
  lemma RoundTrip(ids: seq<string>, start: Option<string>, last: Option<string>, head: Option<string>,
                  toLast: nat, fromHead: nat, total: nat)
    requires Advance(ids, start, toLast) == last
    requires NextActive(ids, last) == head
    requires Advance(ids, head, fromHead) == start
    requires total == toLast + 1 + fromHead
    ensures Advance(ids, start, total) == start
  {
    AdvanceOne(ids, last);
    AdvanceCompose(ids, start, last, head, toLast, 1);
    AdvanceCompose(ids, start, head, start, toLast + 1, fromHead);
  }

  lemma AdvanceOne(ids: seq<string>, active: Option<string>)
    ensures Advance(ids, active, 1) == NextActive(ids, active)
  {
  }

  lemma AdvanceCompose(ids: seq<string>, a: Option<string>, b: Option<string>, c: Option<string>, j: nat, k: nat)
    requires Advance(ids, a, j) == b && Advance(ids, b, k) == c
    ensures Advance(ids, a, j + k) == c
  {
    AdvanceAdd(ids, a, j, k);
  }

  /** On an empty queue any number of next presses changes nothing. */
  lemma {:induction false} AdvanceEmpty(active: Option<string>, k: nat)
    ensures Advance([], active, k) == active
    decreases k
  {
    if k > 0 {
      AdvanceEmpty(active, k - 1);
    }
  }

  /** The worked scenarios: from "b" next twice reaches "c" then wraps to "a";
      from "a" previous wraps to "c". */
  lemma Scenarios()
    ensures NextActive(["a", "b", "c"], Some("b")) == Some("c")
    ensures NextActive(["a", "b", "c"], Some("c")) == Some("a")
    ensures PrevActive(["a", "b", "c"], Some("a")) == Some("c")
  {
    FindIndexIsFirst(["a", "b", "c"], Some("b"), 1);
    FindIndexIsFirst(["a", "b", "c"], Some("c"), 2);
    FindIndexIsFirst(["a", "b", "c"], Some("a"), 0);
  }
}
