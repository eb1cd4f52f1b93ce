/** The event loop's pending timers, as `setTimeout` and `clearTimeout` see
    them: scheduling never cancels an earlier timer, so a binding that keeps
    one handle must make sure it never has two timers pending. */
module Timers {
  import opened WotTypes

  datatype TimerQueue = TimerQueue(pending: map<nat, nat>, nextId: nat) {

    /** Every pending id was handed out before. */
    predicate Valid() {
      forall id :: id in pending ==> id < nextId
    }

    /** `setTimeout(f, delay)`: a new timer with a fresh id; the others stay. */
    function Schedule(delay: nat): (r: (TimerQueue, nat))
      requires Valid()
      ensures r.0.Valid()
      ensures r.1 !in pending && r.0.pending == pending[r.1 := delay]
    {
      (TimerQueue(pending[nextId := delay], nextId + 1), nextId)
    }

    /** `clearTimeout(handle)`: the timer goes if it is pending; an undefined
        handle or a timer that already fired cancels nothing. */
    function Cancel(handle: Option<nat>): (q: TimerQueue)
      requires Valid()
      ensures q.Valid() && q.nextId == nextId
      ensures handle.Some? ==> q.pending == pending - {handle.value}
      ensures handle.None? ==> q == this
    {
      if handle.Some? then TimerQueue(pending - {handle.value}, nextId) else this
    }

    /** The timer `id` fires and is no longer pending. */
    function Fire(id: nat): (q: TimerQueue)
      requires Valid() && id in pending
      ensures q.Valid() && q.pending == pending - {id}
    {
      TimerQueue(pending - {id}, nextId)
    }
  }

  const Idle: TimerQueue := TimerQueue(map[], 0)

  /** When every pending timer is the one a handle refers to, at most one
      timer is pending, and cancelling that handle leaves none. */
  lemma {:induction false} OnlyReferencedPending(q: TimerQueue, handle: Option<nat>)
    requires q.Valid()
    requires forall id :: id in q.pending ==> handle == Some(id)
    ensures |q.pending| <= 1
    ensures q.Cancel(handle).pending == map[]
  {
    if handle.Some? {
      assert q.pending.Keys <= {handle.value};
      SubsetCard(q.pending.Keys, {handle.value});
      assert |q.pending| == |q.pending.Keys|;
      assert q.Cancel(handle).pending.Keys == {};
    } else {
      assert q.pending.Keys == {};
      assert q.pending == map[];
    }
  }

  lemma {:induction false} SubsetCard(a: set<nat>, b: set<nat>)
    requires a <= b
    ensures |a| <= |b|
  {
    if a != {} {
      var x :| x in a;
      SubsetCard(a - {x}, b - {x});
    }
  }
}
