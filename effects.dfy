/** Counting what a handler did to the node: how many messages it sent,
    how often it signalled completion and how many warnings it logged. */
module Effects {
  import opened WotTypes

  datatype Kind = SendKind | DoneKind | WarnKind

  predicate OfKind(e: Effect, k: Kind) {
    match k
    case SendKind => e.Send?
    case DoneKind => e.Done?
    case WarnKind => e.Warn?
  }

  /** The number of effects of kind `k` in `es`. */
  function Count(es: seq<Effect>, k: Kind): (n: nat)
    ensures n <= |es|
    ensures n == 0 <==> forall i :: 0 <= i < |es| ==> !OfKind(es[i], k)
  {
    if es == [] then 0
    else (if OfKind(es[0], k) then 1 else 0) + Count(es[1..], k)
  }

  /** The messages sent, in the order they were sent. */
  function Sent(es: seq<Effect>): (ms: seq<Message>)
    ensures |ms| == Count(es, SendKind)
  {
    if es == [] then []
    else (if es[0].Send? then [es[0].msg] else []) + Sent(es[1..])
  }

  lemma {:induction false} CountAppend(a: seq<Effect>, b: seq<Effect>, k: Kind)
    ensures Count(a + b, k) == Count(a, k) + Count(b, k)
  {
    if a == [] {
      assert a + b == b;
    } else {
      assert (a + b)[1..] == a[1..] + b;
      CountAppend(a[1..], b, k);
    }
  }

  lemma {:induction false} SentAppend(a: seq<Effect>, b: seq<Effect>)
    ensures Sent(a + b) == Sent(a) + Sent(b)
  {
    if a == [] {
      assert a + b == b;
    } else {
      assert (a + b)[1..] == a[1..] + b;
      SentAppend(a[1..], b);
    }
  }

  /** The effects of a handler that may log a warning, then sends `m`,
      then calls `done` when the caller supplied one. */
  function WarnSendDone(warn: bool, m: Message, hasDone: bool): seq<Effect> {
    (if warn then [Warn] else []) + [Send(m)] + (if hasDone then [Done] else [])
  }

  /** Such a handler sends exactly `m`, exactly once; it calls `done` exactly
      once when there is one and never otherwise, and always last. */
  lemma {:induction false} WarnSendDoneCounts(warn: bool, m: Message, hasDone: bool)
    ensures var es := WarnSendDone(warn, m, hasDone);
      && Sent(es) == [m]
      && Count(es, DoneKind) == (if hasDone then 1 else 0)
      && Count(es, WarnKind) == (if warn then 1 else 0)
      && (hasDone ==> es[|es| - 1] == Done)
      && (!hasDone ==> es[|es| - 1] == Send(m))
  {
    var w: seq<Effect> := if warn then [Warn] else [];
    var d: seq<Effect> := if hasDone then [Done] else [];
    assert Sent(w) == [] && Count(w, DoneKind) == 0;
    assert Sent(d) == [] && Count(d, WarnKind) == 0;
    assert Sent([Send(m)]) == [m];
    assert Count([Send(m)], DoneKind) == 0 && Count([Send(m)], WarnKind) == 0;
    SentAppend(w, [Send(m)]);
    SentAppend(w + [Send(m)], d);
    CountAppend(w, [Send(m)], DoneKind);
    CountAppend(w + [Send(m)], d, DoneKind);
    CountAppend(w, [Send(m)], WarnKind);
    CountAppend(w + [Send(m)], d, WarnKind);
  }
}
