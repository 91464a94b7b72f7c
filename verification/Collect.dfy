/** The collector `collect_then_try`, over any finite stream, and `FuturesOrdered`, the stream that the
    large form of `join_all_then_try` runs it on. */
module Collect {
  import opened Outcomes

  // ----- Finite streams -----

  /** A stream is a state and a step. It is finite and lossless when `rest` is what it has still to
      yield: Pending changes nothing, an item is the head of `rest`, and None means that nothing is
      left. Where Pending answers fall is hidden in the state, and is anybody's choice. */
  ghost predicate Yields<S(!new), V(!new), E(!new)>(
    next: S --> (S, Poll<Option<Result<V, E>>>), good: S -> bool, rest: S -> seq<Result<V, E>>)
  {
    forall s :: good(s) ==>
      && next.requires(s)
      && var (s', answer) := next(s);
         && good(s')
         && match answer
            case Pending => rest(s') == rest(s)
            case Ready(None) => rest(s) == [] && rest(s') == []
            case Ready(Some(item)) => rest(s) == [item] + rest(s')
  }

  /** Asked again and again, the stream yields an item each time, going from state to state. */
  ghost predicate Trail<S(!new), V(!new), E(!new)>(
    next: S --> (S, Poll<Option<Result<V, E>>>), good: S -> bool, trail: seq<S>)
  {
    && trail != [] && good(trail[|trail| - 1])
    && forall k | 0 <= k < |trail| - 1 ::
         && good(trail[k]) && next.requires(trail[k])
         && next(trail[k]).0 == trail[k + 1] && IsItem(next(trail[k]).1)
  }

  predicate IsItem<V, E>(answer: Poll<Option<Result<V, E>>>) {
    answer.Ready? && answer.value.Some?
  }

  lemma TrailStart<S(!new), V(!new), E(!new)>(
    next: S --> (S, Poll<Option<Result<V, E>>>), good: S -> bool, s: S)
    requires good(s)
    ensures Trail(next, good, [s])
  {}

  lemma TrailSnoc<S(!new), V(!new), E(!new)>(
    next: S --> (S, Poll<Option<Result<V, E>>>), good: S -> bool, trail: seq<S>, s: S)
    requires Trail(next, good, trail) && good(s)
    requires next.requires(trail[|trail| - 1])
    requires next(trail[|trail| - 1]).0 == s && IsItem(next(trail[|trail| - 1]).1)
    ensures Trail(next, good, trail + [s])
  {}

  class CollectThenTry<S(!new), V(!new), E(!new)> {
    const next: S --> (S, Poll<Option<Result<V, E>>>)
    ghost const good: S -> bool
    ghost const rest: S -> seq<Result<V, E>>
    ghost const all: seq<Result<V, E>>    // everything the stream yields
    ghost var seen: seq<Result<V, E>>     // everything it has yielded
    var stream: S
    var items: seq<V>
    var firstError: Option<E>

    /** The fields are the fold of the items seen so far. */
    ghost predicate Valid()
      reads this
    {
      && Yields(next, good, rest) && good(stream)
      && seen + rest(stream) == all
      && items == Oks(seen)
      && firstError == FirstErr(seen)
    }

    constructor (stream: S, next: S --> (S, Poll<Option<Result<V, E>>>),
                 ghost good: S -> bool, ghost rest: S -> seq<Result<V, E>>)
      requires Yields(next, good, rest) && good(stream)
      ensures Valid() && seen == [] && this.stream == stream && all == rest(stream)
      ensures this.next == next && this.good == good && this.rest == rest
    {
      this.stream, this.next := stream, next;
      this.good, this.rest, this.all := good, rest, rest(stream);
      items, firstError, seen := [], None, [];
    }

    /** Pending leaves the fold of what has been seen; Ready comes only after the last item, whatever
        errors came before, and carries the first error or all values in order. Each poll asks the
        stream until it answers something other than an item, and no further: `trail` lists the states
        in which it was asked. */
    method Poll() returns (p: Poll<Result<seq<V>, E>>, ghost trail: seq<S>)
      requires Valid()
      modifies this
      ensures good(stream)
      ensures seen + rest(stream) == all && old(seen) <= seen
      ensures p.Pending? ==> Valid()
      ensures p.Ready? ==> seen == all && p.value == Gather(all)
      ensures Trail(next, good, trail) && trail[0] == old(stream) && next.requires(trail[|trail| - 1])
      ensures next(trail[|trail| - 1]) == (stream, if p.Ready? then Ready(None) else Pending)
    {
      hide Oks, FirstErr, Gather, Trail;
      GatherIs(all);
      trail := [stream];
      TrailStart(next, good, stream);
      while true
        invariant Valid() && old(seen) <= seen
        invariant Trail(next, good, trail) && trail != [] && trail[0] == old(stream) && trail[|trail| - 1] == stream
        decreases |rest(stream)|
      {
        var (s, answer) := next(stream);
        stream := s;
        match answer {
          case Pending =>
            p := Pending;
            return;
          case Ready(Some(Ok(v))) =>
            Snoc(seen, Ok(v));
            items := items + [v];
            seen := seen + [Ok(v)];
          case Ready(Some(Err(e))) =>
            Snoc(seen, Err(e));
            if firstError.None? {
              firstError := Some(e);
            }
            seen := seen + [Err(e)];
          case Ready(None) =>
            if firstError.Some? {
              p := Ready(Err(firstError.value));
              firstError := None;
              return;
            }
            p := Ready(Ok(items));
            items := [];
            return;
        }
        TrailSnoc(next, good, trail, s);
        trail := trail + [s];
      }
    }
  }

  // ----- FuturesOrdered -----

  /** Futures complete in any order; those ahead of their turn wait in the queue. Future `i` is ready in
      poll `k` if `ready(k, i)`; of those that are ready, the adversary `pick`s the one that completes
      first. A request is Pending only when no future is ready, and ends poll number `polls`. */
  datatype Ordered<!V, !E> = Ordered(
    outs: seq<Result<V, E>>,
    inProgress: set<nat>,
    queued: set<nat>,
    nextOut: nat,
    ready: (nat, nat) -> bool,
    pick: (nat, set<nat>) -> nat,
    polls: nat)
  {
    ghost predicate Valid() {
      && Chooses(pick)
      && nextOut <= |outs|
      && inProgress !! queued
      && forall i: nat :: i in inProgress || i in queued <==> nextOut <= i < |outs|
    }

    /** What is still to be delivered. */
    ghost function Rest(): seq<Result<V, E>> {
      if nextOut <= |outs| then outs[nextOut..] else []
    }

    function ReadyNow(): set<nat> {
      set i | i in inProgress && ready(polls, i)
    }

    /** Future `i` has completed; `delivered` if it was its turn. */
    function Without(i: nat, delivered: bool): Ordered<V, E> {
      if delivered then this.(inProgress := inProgress - {i}, nextOut := i + 1)
      else this.(inProgress := inProgress - {i}, queued := queued + {i})
    }
  }

  /** Any order is an order of completion. */
  ghost predicate Chooses(pick: (nat, set<nat>) -> nat) {
    forall k, candidates: set<nat> | candidates != {} :: pick(k, candidates) in candidates
  }

  function AllInProgress<V, E>(outs: seq<Result<V, E>>, ready: (nat, nat) -> bool, pick: (nat, set<nat>) -> nat)
    : Ordered<V, E>
  {
    Ordered(outs, UpTo(|outs|), {}, 0, ready, pick, 0)
  }

  lemma AllInProgressValid<V, E>(outs: seq<Result<V, E>>, ready: (nat, nat) -> bool, pick: (nat, set<nat>) -> nat)
    requires Chooses(pick)
    ensures AllInProgress(outs, ready, pick).Valid() && AllInProgress(outs, ready, pick).Rest() == outs
  {}

  function NextOrdered<V, E>(o: Ordered<V, E>): (Ordered<V, E>, Poll<Option<Result<V, E>>>)
    requires Chooses(o.pick)
  {
    if o.nextOut in o.queued && o.nextOut < |o.outs| then
      (o.(queued := o.queued - {o.nextOut}, nextOut := o.nextOut + 1), Ready(Some(o.outs[o.nextOut])))
    else Await(o)
  }

  function Await<V, E>(o: Ordered<V, E>): (Ordered<V, E>, Poll<Option<Result<V, E>>>)
    requires Chooses(o.pick)
    decreases |o.inProgress|
  {
    if o.inProgress == {} then (o, Ready(None))
    else if o.ReadyNow() == {} then (o.(polls := o.polls + 1), Pending)
    else
      var i := o.pick(o.polls, o.ReadyNow());
      assert i in o.ReadyNow();
      if i == o.nextOut && i < |o.outs| then (o.Without(i, true), Ready(Some(o.outs[i])))
      else Await(o.Without(i, false))
  }

  /** A future that completes ahead of its turn waits in the queue. */
  lemma Requeue<V, E>(o: Ordered<V, E>, i: nat)
    requires o.Valid() && o.nextOut !in o.queued && i in o.inProgress && i != o.nextOut
    ensures var o' := o.Without(i, false); o'.Valid() && o'.nextOut !in o'.queued && o'.Rest() == o.Rest()
  {}

  /** One that completes in its turn is delivered. */
  lemma InTurn<V, E>(o: Ordered<V, E>)
    requires o.Valid() && o.nextOut in o.inProgress
    ensures o.nextOut < |o.outs|
    ensures var o' := o.Without(o.nextOut, true); o'.Valid() && o.Rest() == [o.outs[o.nextOut]] + o'.Rest()
  {}

  /** Nothing can be left in the queue when no future is running. */
  lemma AllDelivered<V, E>(o: Ordered<V, E>)
    requires o.Valid() && o.nextOut !in o.queued && o.inProgress == {}
    ensures o.Rest() == []
  {
    assert o.nextOut !in o.inProgress;
  }

  lemma PickChooses<V, E>(o: Ordered<V, E>)
    requires o.Valid()
    ensures Chooses(o.pick)
  {}

  lemma PollOver<V, E>(o: Ordered<V, E>)
    requires o.Valid()
    ensures o.(polls := o.polls + 1).Valid() && o.(polls := o.polls + 1).Rest() == o.Rest()
  {}

  /** From `o` to `o'`, only futures that are ready in the current poll have completed. */
  ghost predicate OnlyReadyLeft<V, E>(o: Ordered<V, E>, o': Ordered<V, E>) {
    && o'.outs == o.outs && o'.ready == o.ready
    && o'.inProgress <= o.inProgress
    && forall i | i in o.inProgress && i !in o'.inProgress :: o.ready(o.polls, i)
  }

  /** What a request may answer. Pending means that every future that is ready has completed. */
  ghost predicate Delivers<V, E>(o: Ordered<V, E>, o': Ordered<V, E>, answer: Poll<Option<Result<V, E>>>) {
    && o'.Valid() && OnlyReadyLeft(o, o')
    && o'.polls == o.polls + (if answer.Pending? then 1 else 0)
    && match answer
       case Pending =>
         o'.Rest() == o.Rest() && o'.inProgress != {} && forall i | i in o'.inProgress :: !o.ready(o.polls, i)
       case Ready(None) => o.Rest() == [] && o'.Rest() == [] && o'.inProgress == {}
       case Ready(Some(item)) => o.Rest() == [item] + o'.Rest()
  }

  /** However the futures complete, the outputs come in list order, each once. A future that is ready
      does complete; Pending means that some future is not, and an output never waits behind the end
      of the stream. */
  lemma {:induction false} AwaitInOrder<V, E>(o: Ordered<V, E>)
    requires o.Valid() && o.nextOut !in o.queued
    ensures Delivers(o, Await(o).0, Await(o).1)
    decreases |o.inProgress|
  {
    hide Ordered.Valid, Ordered.Rest;
    PickChooses(o);
    if o.inProgress == {} {
      AllDelivered(o);
      return;
    }
    if o.ReadyNow() == {} {
      PollOver(o);
      assert forall i | i in o.inProgress :: i !in o.ReadyNow();
      return;
    }
    var i := o.pick(o.polls, o.ReadyNow());
    assert i in o.ReadyNow();
    if i == o.nextOut {
      InTurn(o);
    } else {
      Requeue(o, i);
      AwaitInOrder(o.Without(i, false));
    }
  }

  lemma NextInOrder<V, E>(o: Ordered<V, E>)
    requires o.Valid()
    ensures Delivers(o, NextOrdered(o).0, NextOrdered(o).1)
  {
    if o.nextOut !in o.queued {
      AwaitInOrder(o);
    }
  }

  lemma {:induction false} TrailInOrder<V(!new), E(!new)>(trail: seq<Ordered<V, E>>)
    requires trail != [] && trail[|trail| - 1].Valid()
    requires forall k | 0 <= k < |trail| - 1 ::
               trail[k].Valid() && NextOrdered(trail[k]).0 == trail[k + 1] && IsItem(NextOrdered(trail[k]).1)
    ensures OnlyReadyLeft(trail[0], trail[|trail| - 1]) && trail[|trail| - 1].polls == trail[0].polls
  {
    hide NextOrdered, Ordered.Valid, Ordered.Rest;
    if |trail| > 1 {
      NextInOrder(trail[0]);
      TrailInOrder(trail[1..]);
    }
  }

  /** Over a whole poll, exactly the futures that are ready in it complete. */
  lemma {:induction false} PollCompletesReady<V(!new), E(!new)>(
    next: Ordered<V, E> --> (Ordered<V, E>, Poll<Option<Result<V, E>>>), good: Ordered<V, E> -> bool,
    trail: seq<Ordered<V, E>>, end: Ordered<V, E>, answer: Poll<Option<Result<V, E>>>)
    requires forall o: Ordered<V, E> :: good(o) <==> o.Valid()
    requires forall o: Ordered<V, E> | o.Valid() :: next.requires(o) && next(o) == NextOrdered(o)
    requires Trail(next, good, trail) && next.requires(trail[|trail| - 1])
    requires next(trail[|trail| - 1]) == (end, answer) && !IsItem(answer)
    ensures end.inProgress == trail[0].inProgress - trail[0].ReadyNow()
    ensures end.ready == trail[0].ready
    ensures end.polls == trail[0].polls + (if answer.Pending? then 1 else 0)
    ensures answer.Pending? <==> end.inProgress != {}
  {
    hide NextOrdered, Ordered.Valid, Ordered.Rest;
    TrailInOrder(trail);
    NextInOrder(trail[|trail| - 1]);
  }

  lemma OrderedYields<V(!new), E(!new)>()
    ensures Yields<Ordered<V, E>, V, E>(NextOrdered, (o: Ordered<V, E>) => o.Valid(), (o: Ordered<V, E>) => o.Rest())
  {
    forall o: Ordered<V, E> | o.Valid()
      ensures var (o', answer) := NextOrdered(o);
              o'.Valid() && match answer
                            case Pending => o'.Rest() == o.Rest()
                            case Ready(None) => o.Rest() == [] && o'.Rest() == []
                            case Ready(Some(item)) => o.Rest() == [item] + o'.Rest()
    {
      NextInOrder(o);
    }
  }
}
