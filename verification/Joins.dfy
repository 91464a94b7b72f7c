/** The two joins that run every future to completion: the rotating loop of `join_then_try!` and the
    two forms of `join_all_then_try`. */
module Joins {
  import opened Outcomes
  import opened Collect

  newtype u32 = x: int | 0 <= x < 0x1_0000_0000

  /** The outputs that the futures will have, and the adversary: whether future `i`, polled during
      poll `k` of the join, is ready. */
  datatype Branches<!V, !E> = Branches(outs: seq<Result<V, E>>, ready: (nat, nat) -> bool)

  datatype MaybeDone<V, E> = Future | Done(output: Result<V, E>) | Gone

  /** Future `i` has been ready during one of the first `k` polls. */
  predicate Resolved<V, E>(w: Branches<V, E>, i: nat, k: nat) {
    0 < k && (Resolved(w, i, k - 1) || w.ready(k - 1, i))
  }

  /** The futures being joined, with the polls made of them. */
  class Futures<V, E> {
    const w: Branches<V, E>
    ghost var visits: seq<nat>   // the slots that have been polled
    ghost var polled: seq<nat>   // the futures that have really been polled

    constructor (w: Branches<V, E>)
      ensures this.w == w && visits == [] && polled == []
    {
      this.w := w;
      visits, polled := [], [];
    }

    /** In poll `k` of the join, poll slot `i`. That polls the future if it is still there. A slot whose
        output has been taken is not to be polled. */
    method PollMaybeDone(slot: MaybeDone<V, E>, i: nat, k: nat) returns (slot': MaybeDone<V, E>, p: Poll<()>)
      requires i < |w.outs| && !slot.Gone?
      modifies this
      ensures visits == old(visits) + [i]
      ensures polled == if slot.Future? then old(polled) + [i] else old(polled)
      ensures slot' == if slot.Future? && w.ready(k, i) then Done(w.outs[i]) else slot
      ensures p.Pending? <==> slot'.Future?
      ensures slot == SlotAt(w, i, k) ==>
                && slot' == SlotAt(w, i, k + 1)
                && polled == old(polled) + if Resolved(w, i, k) then [] else [i]
    {
      visits := visits + [i];
      slot', p := slot, Ready(());
      if slot.Future? {
        polled := polled + [i];
        if w.ready(k, i) {
          slot' := Done(w.outs[i]);
        } else {
          p := Pending;
        }
      }
    }
  }

  function SlotAt<V, E>(w: Branches<V, E>, i: nat, k: nat): MaybeDone<V, E>
    requires i < |w.outs|
  {
    if Resolved(w, i, k) then Done(w.outs[i]) else Future
  }

  predicate ResolvedBelow<V, E>(w: Branches<V, E>, n: nat, k: nat) {
    forall i | 0 <= i < n :: Resolved(w, i, k)
  }

  predicate AllResolved<V, E>(w: Branches<V, E>, k: nat) {
    ResolvedBelow(w, |w.outs|, k)
  }

  lemma ResolvedOneMore<V, E>(w: Branches<V, E>, n: nat, k: nat)
    ensures ResolvedBelow(w, n + 1, k) <==> ResolvedBelow(w, n, k) && Resolved(w, n, k)
  {}

  lemma ResolvedStays<V, E>(w: Branches<V, E>, k: nat)
    ensures AllResolved(w, k) ==> AllResolved(w, k + 1)
  {
    if AllResolved(w, k) {
      var k' := k + 1;
      forall i | 0 <= i < |w.outs| ensures Resolved(w, i, k') {
        assert Resolved(w, i, k);
      }
    }
  }

  /** The futures that have not been ready during any of the first `k` polls. */
  function Unresolved<V, E>(w: Branches<V, E>, k: nat): set<nat> {
    set i: nat | i < |w.outs| && !Resolved(w, i, k)
  }

  lemma NoneUnresolved<V, E>(w: Branches<V, E>, k: nat)
    ensures AllResolved(w, k) <==> Unresolved(w, k) == {}
  {
    hide Resolved;
    if Unresolved(w, k) == {} {
      forall i: nat | i < |w.outs| ensures Resolved(w, i, k) {
        assert i !in Unresolved(w, k);
      }
    }
  }

  lemma UnresolvedNext<V, E>(w: Branches<V, E>, k: nat)
    ensures Unresolved(w, 0) == UpTo(|w.outs|)
    ensures Unresolved(w, k + 1) == Unresolved(w, k) - (set i | i in Unresolved(w, k) && w.ready(k, i))
  {}

  /** What a join has to answer to poll `k`: nothing until every future has been ready, then all the
      values in order or the error listed first. */
  function Answer<V, E>(w: Branches<V, E>, k: nat): Poll<Result<seq<V>, E>> {
    if AllResolved(w, k + 1) then Ready(Gather(w.outs)) else Pending
  }

  ghost predicate EverReady(ready: (nat, nat) -> bool, i: nat, k: nat) {
    exists j: nat :: j < k && ready(j, i)
  }

  lemma {:induction false} ResolvedMeaning<V, E>(w: Branches<V, E>, i: nat, k: nat)
    ensures Resolved(w, i, k) <==> EverReady(w.ready, i, k)
  {
    if 0 < k {
      ResolvedMeaning(w, i, k - 1);
      if EverReady(w.ready, i, k) {
        var j: nat :| j < k && w.ready(j, i);
        assert j == k - 1 || Resolved(w, i, k - 1);
      }
    }
  }

  /** Poll `k` is answered Ready exactly when every future has been ready in it or before, and then with
      all the values in order or the error listed first. */
  lemma AnswerMeaning<V, E>(w: Branches<V, E>, k: nat, polls: nat)
    requires polls == k + 1
    ensures Answer(w, k).Ready? <==> forall i: nat | i < |w.outs| :: EverReady(w.ready, i, polls)
    ensures Answer(w, k).Ready? ==> Answer(w, k).value == Gather(w.outs)
  {
    hide Gather, Resolved;
    forall i: nat | i < |w.outs| {
      ResolvedMeaning(w, i, polls);
    }
  }

  // ----- The order of the rotating loop -----

  /** Start at `start`, go round once. */
  function Rotation(n: nat, start: nat): (r: seq<nat>)
    ensures |r| == n
  {
    seq(n, (k: nat) => Turn(n, start, k))
  }

  function Turn(n: nat, start: nat, k: nat): nat {
    if start + k < n then start + k else start + k - n
  }

  /** Going round once passes every branch exactly once. */
  lemma RotationVisitsOnce(n: nat, start: nat, b: nat)
    requires start < n && b < n
    ensures exists k :: 0 <= k < n && Rotation(n, start)[k] == b
    ensures forall j, k :: 0 <= j < n && 0 <= k < n && Rotation(n, start)[j] == Rotation(n, start)[k] ==> j == k
    ensures Rotation(n, start)[0] == start
    ensures forall k :: 0 <= k < n ==> Rotation(n, start)[k] == if start + k < n then start + k else start + k - n
  {
    assert Rotation(n, start)[if start <= b then b - start else b + n - start] == b;
  }

  /** Poll `k` leads with branch `k % n`. */
  function LeadOf(n: nat, k: nat): nat
    requires 0 < n
  {
    Rotation(n, k % n)[0]
  }

  lemma {:induction false} ModBump(n: nat, k: nat)
    requires 0 < n
    ensures (k + 1) % n == if k % n + 1 == n then 0 else k % n + 1
  {
    var q, r := k / n, k % n;
    assert k == q * n + r;
    if r + 1 == n {
      assert k + 1 == (q + 1) * n;
      DivUnique(n, k + 1, q + 1, 0);
    } else {
      DivUnique(n, k + 1, q, r + 1);
    }
  }

  lemma {:induction false} DivUnique(n: nat, k: nat, q: nat, r: nat)
    requires r < n && k == q * n + r
    ensures k % n == r
  {
    var q', r' := k / n, k % n;
    assert k == q' * n + r';
    if q < q' {
      MulGap(n, q, q');
    } else if q' < q {
      MulGap(n, q', q);
    }
  }

  lemma {:induction false} MulGap(n: nat, q: nat, q': nat)
    requires q < q'
    ensures q * n + n <= q' * n
  {
    assert q' * n == (q' - 1) * n + n;
    if q < q' - 1 {
      MulGap(n, q, q' - 1);
    }
  }

  /** Fairness: among any `n` consecutive polls every branch leads exactly once. */
  lemma {:induction false} LeadsOnce(n: nat, from: nat, b: nat)
    requires b < n
    ensures exists k :: from <= k < from + n && LeadOf(n, k) == b
    ensures forall j, k :: from <= j < from + n && from <= k < from + n && LeadOf(n, j) == b && LeadOf(n, k) == b ==> j == k
  {
    hide LeadOf, Turn;
    var r := from % n;
    forall d: nat | d < n ensures LeadOf(n, from + d) == Turn(n, r, d) {
      LeadAfter(n, from, d);
    }
    assert exists k :: from <= k < from + n && LeadOf(n, k) == b by {
      var d := TurnOnto(n, r, b);
      assert LeadOf(n, from + d) == b;
    }
    forall j, k | from <= j < from + n && from <= k < from + n && LeadOf(n, j) == b && LeadOf(n, k) == b
      ensures j == k
    {
      LeadAfter(n, from, j - from);
      LeadAfter(n, from, k - from);
      TurnOnce(n, r, j - from, k - from);
    }
  }

  lemma TurnOnto(n: nat, start: nat, b: nat) returns (d: nat)
    requires start < n && b < n
    ensures d < n && Turn(n, start, d) == b
  {
    d := if start <= b then b - start else b + n - start;
  }

  lemma TurnOnce(n: nat, start: nat, j: nat, k: nat)
    requires start < n && j < n && k < n && Turn(n, start, j) == Turn(n, start, k)
    ensures j == k
  {}

  lemma {:induction false} LeadAfter(n: nat, from: nat, d: nat)
    requires d < n
    ensures LeadOf(n, from + d) == Turn(n, from % n, d)
    ensures (from + d) % n == Turn(n, from % n, d)
  {
    if d > 0 {
      LeadAfter(n, from, d - 1);
      ModBump(n, from + d - 1);
    }
  }

  /** When branch `b` has its turn. */
  function Position(n: nat, start: nat, b: nat): int {
    if start <= b then b - start else b + n - start
  }

  lemma RotationTurns(n: nat, start: nat)
    requires start < n
    ensures forall k :: 0 <= k < n ==> Rotation(n, start)[k] == Turn(n, start, k)
    ensures forall k :: 0 <= k < n ==> Position(n, start, Turn(n, start, k)) == k
    ensures forall b :: 0 <= b < n ==> 0 <= Position(n, start, b) < n
    ensures forall b, c :: 0 <= b < n && 0 <= c < n && Position(n, start, b) == Position(n, start, c) ==> b == c
  {}

  /** In poll `polls`, the first `k` branches of the rotation have been visited. */
  ghost predicate Halfway<V, E>(
    w: Branches<V, E>, slots: seq<MaybeDone<V, E>>, polls: nat, start: nat, k: int, isPending: bool)
  {
    var n := |w.outs|;
    && |slots| == n
    && (forall b | 0 <= b < n :: slots[b] == SlotAt(w, b, if Position(n, start, b) < k then polls + 1 else polls))
    && (isPending <==> exists b :: 0 <= b < n && Position(n, start, b) < k && slots[b] == Future)
  }

  /** One more branch. */
  lemma HalfwayStep<V, E>(
    w: Branches<V, E>, slots: seq<MaybeDone<V, E>>, polls: nat, start: nat, k: int, isPending: bool, i: nat)
    requires Halfway(w, slots, polls, start, k, isPending)
    requires start < |w.outs| && i < |w.outs| && Position(|w.outs|, start, i) == k
    ensures |slots| == |w.outs| && slots[i] == SlotAt(w, i, polls) && !slots[i].Gone?
    ensures var slots' := slots[i := SlotAt(w, i, polls + 1)];
            Halfway(w, slots', polls, start, k + 1, isPending || slots'[i] == Future)
  {
    hide Resolved;
    var n := |w.outs|;
    var slots' := slots[i := SlotAt(w, i, polls + 1)];
    RotationTurns(n, start);
    assert forall b | 0 <= b < n && b != i :: Position(n, start, b) != k;
    if isPending {
      var b :| 0 <= b < n && Position(n, start, b) < k && slots[b] == Future;
      assert slots'[b] == Future;
    }
  }

  lemma HalfwayEnds<V, E>(w: Branches<V, E>, slots: seq<MaybeDone<V, E>>, polls: nat, start: nat, isPending: bool)
    requires start < |w.outs| && Halfway(w, slots, polls, start, |w.outs|, isPending)
    ensures |slots| == |w.outs| && forall b | 0 <= b < |w.outs| :: slots[b] == SlotAt(w, b, polls + 1)
    ensures isPending <==> !AllResolved(w, polls + 1)
  {
    hide Resolved;
    RotationTurns(|w.outs|, start);
    if !AllResolved(w, polls + 1) {
      var b :| 0 <= b < |w.outs| && !Resolved(w, b, polls + 1);
      assert slots[b] == Future;
    }
  }

  lemma HalfwayStarts<V, E>(w: Branches<V, E>, slots: seq<MaybeDone<V, E>>, polls: nat, start: nat)
    requires start < |w.outs| == |slots| && forall b | 0 <= b < |w.outs| :: slots[b] == SlotAt(w, b, polls)
    ensures Halfway(w, slots, polls, start, 0, false)
  {
    RotationTurns(|w.outs|, start);
  }

  // ----- join_then_try! -----

  /** Those of the branches visited that have never been ready before poll `k`. */
  function Live<V, E>(w: Branches<V, E>, visited: seq<nat>, k: nat): seq<nat> {
    if visited == [] then []
    else
      var i := visited[|visited| - 1];
      Live(w, visited[..|visited| - 1], k) + if Resolved(w, i, k) then [] else [i]
  }

  lemma LiveSnoc<V, E>(w: Branches<V, E>, visited: seq<nat>, i: nat, k: nat)
    ensures Live(w, visited + [i], k) == Live(w, visited, k) + if Resolved(w, i, k) then [] else [i]
  {
    assert (visited + [i])[..|visited|] == visited;
  }

  /** The futures really polled are those of the branches visited that have not completed, each once. */
  lemma {:induction false} LiveMeaning<V, E>(w: Branches<V, E>, visited: seq<nat>, k: nat)
    ensures forall b :: b in Live(w, visited, k) <==> b in visited && !Resolved(w, b, k)
    ensures (forall i, j | 0 <= i < j < |visited| :: visited[i] != visited[j]) ==>
              forall i, j | 0 <= i < j < |Live(w, visited, k)| :: Live(w, visited, k)[i] != Live(w, visited, k)[j]
  {
    if visited != [] {
      var init, last := visited[..|visited| - 1], visited[|visited| - 1];
      assert visited == init + [last];
      LiveMeaning(w, init, k);
      assert forall b :: b in visited <==> b in init || b == last;
      assert (forall i, j | 0 <= i < j < |visited| :: visited[i] != visited[j]) ==> last !in init;
    }
  }

  lemma LiveNone<V, E>(w: Branches<V, E>, k: nat)
    ensures Live(w, [], k) == []
  {}

  lemma ResolvedNext<V, E>(w: Branches<V, E>, i: nat, k: nat)
    ensures Resolved(w, i, k + 1) <==> Resolved(w, i, k) || w.ready(k, i)
  {}

  /** The slots once the outputs have been taken out: an error ends the taking, so that later outputs
      stay where they are. */
  function Taken<V, E>(outs: seq<Result<V, E>>): seq<MaybeDone<V, E>> {
    seq(|outs|, i requires 0 <= i < |outs| => if AllOkBelow(outs, i) then Gone else Done(outs[i]))
  }

  predicate AllOkBelow<V, E>(outs: seq<Result<V, E>>, i: nat)
    requires i <= |outs|
  {
    forall j | 0 <= j < i :: outs[j].Ok?
  }

  /** Take the outputs in order, stopping at the first error; every slot is there to be taken. */
  method TakeOutputs<V, E>(ghost outs: seq<Result<V, E>>, slots: seq<MaybeDone<V, E>>)
    returns (result: Result<seq<V>, E>, left: seq<MaybeDone<V, E>>)
    requires |slots| == |outs| && forall i | 0 <= i < |outs| :: slots[i] == Done(outs[i])
    ensures result == Gather(outs) && left == Taken(outs)
    ensures forall i | 0 <= i < |left| :: left[i] == if forall j | 0 <= j < i :: outs[j].Ok? then Gone else Done(outs[i])
  {
    hide Gather;
    GatherNothing<V, E>();
    var values: seq<V> := [];
    left := slots;
    for i := 0 to |slots|
      invariant |left| == |slots| && AllOkBelow(outs, i)
      invariant forall j | 0 <= j < |slots| :: left[j] == if j < i then Gone else slots[j]
      invariant Gather(outs[..i]) == Ok(values)
    {
      var output := left[i].output;
      left := left[i := Gone];
      match output {
        case Ok(v) =>
          GatherOneMore(outs[..i], values, v);
          assert outs[..i + 1] == outs[..i] + [Ok(v)];
          values := values + [v];
        case Err(e) =>
          GatherMeaning(outs, values, e);
          result := Err(e);
          return;
      }
    }
    assert outs[..|slots|] == outs;
    result := Ok(values);
  }

  class JoinThenTry<V, E> {
    const w: Branches<V, E>
    const futures: Futures<V, E>
    const COUNT: u32
    var slots: seq<MaybeDone<V, E>>
    var skipNextTime: u32
    var polls: nat

    /** Between polls: a slot is Done as soon as its future has been ready, and the next poll starts
        one branch further on. */
    ghost predicate Valid()
      reads this
    {
      && futures.w == w
      && 0 < COUNT && COUNT as int == |w.outs| == |slots|
      && skipNextTime as int == polls % |w.outs|
      && forall i | 0 <= i < |w.outs| :: slots[i] == SlotAt(w, i, polls)
    }

    constructor (outs: seq<Result<V, E>>, ready: (nat, nat) -> bool)
      requires 0 < |outs| < 0x1_0000_0000
      ensures Valid() && polls == 0 && w == Branches(outs, ready)
      ensures fresh(futures) && futures.visits == futures.polled == []
    {
      w := Branches(outs, ready);
      futures := new Futures(Branches(outs, ready));
      COUNT := |outs| as u32;
      slots := seq(|outs|, _ => Future);
      skipNextTime, polls := 0, 0;
    }

    /** One poll: every branch is visited once, in the order rotated by the number of the poll, and
        those that had not completed are really polled. */
    method Poll() returns (p: Poll<Result<seq<V>, E>>)
      requires Valid()
      modifies this, futures
      ensures p == Answer(w, old(polls))
      ensures var order := Rotation(|w.outs|, old(polls) % |w.outs|);
              && futures.visits == old(futures.visits) + order
              && futures.polled == old(futures.polled) + Live(w, order, old(polls))
      ensures polls == old(polls) + 1
      ensures p.Pending? ==> Valid()
      ensures p.Ready? ==> slots == Taken(w.outs)
    {
      hide Resolved, Gather, Rotation, Live, Taken;
      var skip := skipNextTime;
      skipNextTime := if skip + 1 == COUNT then 0 else skip + 1;
      ModBump(|w.outs|, polls);
      var isPending;
      ghost var round, at;
      isPending, round, at := VisitBranches(skip);
      polls := polls + 1;
      if isPending {
        return Pending;
      }
      assert AllResolved(w, polls);
      var result;
      result, slots := TakeOutputs(w.outs, slots);
      p := Ready(result);
    }

    /** In this poll, the first `k` branches of the rotation have been visited; `visits` and `polled` are
        what had been logged before. */
    ghost predicate Visited(start: nat, k: nat, isPending: bool, visits: seq<nat>, polled: seq<nat>)
      requires k <= |w.outs|
      reads this, futures
    {
      var order := Rotation(|w.outs|, start)[..k];
      && Halfway(w, slots, polls, start, k, isPending)
      && futures.visits == visits + order
      && futures.polled == polled + Live(w, order, polls)
    }

    /** One branch has its turn. */
    method VisitBranch(i: nat, isPending: bool,
                       ghost start: nat, ghost k: nat, ghost visits: seq<nat>, ghost polled: seq<nat>)
      returns (isPending': bool)
      requires futures.w == w && i < |w.outs| && start < |w.outs| && k == Position(|w.outs|, start, i)
      requires k < |w.outs| && Visited(start, k, isPending, visits, polled)
      modifies this`slots, futures
      ensures Visited(start, k + 1, isPending', visits, polled)
    {
      hide Resolved, Live, Rotation, Halfway, SlotAt, Position;
      ghost var order := Rotation(|w.outs|, start);
      RotationTurns(|w.outs|, start);
      assert order[..k + 1] == order[..k] + [i];
      LiveSnoc(w, order[..k], i, polls);
      HalfwayStep(w, slots, polls, start, k, isPending, i);
      var slot, r := futures.PollMaybeDone(slots[i], i, polls);
      slots := slots[i := slot];
      isPending' := isPending || r.Pending?;
    }

    /** The loop over the branches, which goes round twice and skips the first `first` branches the
        first time: every branch is visited once, and the second round is left where the
        first one started. */
    method VisitBranches(first: u32) returns (isPending: bool, ghost round: nat, ghost at: nat)
      requires futures.w == w
      requires 0 < COUNT && COUNT as int == |w.outs| == |slots| && first < COUNT
      requires forall i | 0 <= i < |w.outs| :: slots[i] == SlotAt(w, i, polls)
      modifies this`slots, futures
      ensures |slots| == |w.outs| && forall i | 0 <= i < |w.outs| :: slots[i] == SlotAt(w, i, polls + 1)
      ensures isPending <==> !AllResolved(w, polls + 1)
      ensures futures.visits == old(futures.visits) + Rotation(|w.outs|, first as int)
      ensures futures.polled == old(futures.polled) + Live(w, Rotation(|w.outs|, first as int), polls)
      ensures round == 1 && at == first as int
    {
      hide Visited, AllResolved, SlotAt, Halfway, Live, Rotation;
      var n := |w.outs|;
      ghost var start := first as int;
      ghost var visits, polled := futures.visits, futures.polled;
      isPending := false;
      NothingVisited(start);
      var toRun := COUNT;
      var skip := first;
      round := 0;
      label polling: while true
        invariant 0 <= round <= 1 && toRun <= COUNT
        invariant round == 0 ==> skip as int == start && toRun == COUNT
        invariant round == 1 ==> skip == 0 && toRun as int == start
        invariant Visited(start, n - toRun as int, isPending, visits, polled)
        decreases 1 - round
      {
        var i := 0;
        while i < n
          invariant 0 <= i <= n && toRun <= COUNT
          invariant round == 0 ==> skip as int == (if i <= start then start - i else 0)
          invariant round == 0 ==> toRun as int == if i <= start then n else n - (i - start)
          invariant round == 1 ==> skip == 0 && i <= start && toRun as int == start - i
          invariant Visited(start, n - toRun as int, isPending, visits, polled)
        {
          if skip == 0 {
            if toRun == 0 {
              at := i;
              break polling;
            }
            isPending := VisitBranch(i, isPending, start, n - toRun as int, visits, polled);
            toRun := toRun - 1;
          } else {
            skip := skip - 1;
          }
          i := i + 1;
        }
        round := round + 1;
      }
      AllVisited(start, isPending, visits, polled);
    }

    lemma NothingVisited(start: nat)
      requires start < |w.outs| == |slots| && forall i | 0 <= i < |w.outs| :: slots[i] == SlotAt(w, i, polls)
      ensures Visited(start, 0, false, futures.visits, futures.polled)
    {
      LiveNone(w, polls);
      HalfwayStarts(w, slots, polls, start);
    }

    lemma AllVisited(start: nat, isPending: bool, visits: seq<nat>, polled: seq<nat>)
      requires start < |w.outs| && Visited(start, |w.outs|, isPending, visits, polled)
      ensures |slots| == |w.outs| && forall i | 0 <= i < |w.outs| :: slots[i] == SlotAt(w, i, polls + 1)
      ensures isPending <==> !AllResolved(w, polls + 1)
      ensures futures.visits == visits + Rotation(|w.outs|, start)
      ensures futures.polled == polled + Live(w, Rotation(|w.outs|, start), polls)
    {
      hide Resolved, Live, Halfway;
      assert Rotation(|w.outs|, start)[..|w.outs|] == Rotation(|w.outs|, start);
      HalfwayEnds(w, slots, polls, start, isPending);
    }
  }

  // ----- join_all_then_try -----

  const SMALL: nat := 30

  predicate TakesSlice(upper: Option<nat>, atomicCas: bool) {
    !atomicCas || (upper.Some? && upper.value <= SMALL)
  }

  /** One pass over the slots, in list order: each is polled once, and a future only if it had not
      completed. */
  method PollSlots<V, E>(futures: Futures<V, E>, elems: seq<MaybeDone<V, E>>, polls: nat)
    returns (slots: seq<MaybeDone<V, E>>, allDone: bool)
    requires |elems| == |futures.w.outs|
    requires forall i | 0 <= i < |elems| :: elems[i] == SlotAt(futures.w, i, polls)
    modifies futures
    ensures |slots| == |elems| && forall i | 0 <= i < |slots| :: slots[i] == SlotAt(futures.w, i, polls + 1)
    ensures allDone <==> AllResolved(futures.w, polls + 1)
    ensures allDone ==> forall i | 0 <= i < |slots| :: slots[i] == Done(futures.w.outs[i])
    ensures futures.visits == old(futures.visits) + Rotation(|elems|, 0)
    ensures futures.polled == old(futures.polled) + Live(futures.w, Rotation(|elems|, 0), polls)
  {
    hide Resolved, Live;
    var w, n := futures.w, |elems|;
    ghost var order := Rotation(n, 0);
    LiveNone(w, polls);
    slots, allDone := elems, true;
    for i := 0 to n
      invariant |slots| == n
      invariant forall j | 0 <= j < n :: slots[j] == SlotAt(w, j, if j < i then polls + 1 else polls)
      invariant allDone <==> ResolvedBelow(w, i, polls + 1)
      invariant futures.visits == old(futures.visits) + order[..i]
      invariant futures.polled == old(futures.polled) + Live(w, order[..i], polls)
    {
      assert order[..i + 1] == order[..i] + [i];
      LiveSnoc(w, order[..i], i, polls);
      ResolvedNext(w, i, polls);
      ResolvedOneMore(w, i, polls + 1);
      var slot, r := futures.PollMaybeDone(slots[i], i, polls);
      slots := slots[i := slot];
      if r.Pending? {
        allDone := false;
      }
    }
    assert order[..n] == order;
  }

  ghost predicate OverOrdered<V(!new), E(!new)>(fut: CollectThenTry<Ordered<V, E>, V, E>) {
    && (forall o: Ordered<V, E> :: fut.good(o) <==> o.Valid())
    && (forall o: Ordered<V, E> :: fut.rest(o) == o.Rest())
    && (forall o: Ordered<V, E> | o.Valid() :: fut.next.requires(o) && fut.next(o) == NextOrdered(o))
  }

  /** The collector after `polls` polls: what is still running are the futures that have not been ready. */
  ghost predicate Collecting<V(!new), E(!new)>(
    fut: CollectThenTry<Ordered<V, E>, V, E>, w: Branches<V, E>, polls: nat)
    reads fut
  {
    && fut.Valid() && fut.all == w.outs && OverOrdered(fut)
    && fut.stream.ready == w.ready && fut.stream.polls == polls
    && fut.stream.inProgress == Unresolved(w, polls)
  }

  method CollectOrdered<V(!new), E(!new)>(w: Branches<V, E>, pick: (nat, set<nat>) -> nat)
    returns (fut: CollectThenTry<Ordered<V, E>, V, E>)
    requires Chooses(pick)
    ensures fresh(fut) && Collecting(fut, w, 0)
  {
    hide Resolved, Unresolved, Yields, NextOrdered, CollectThenTry.Valid, Ordered.Rest;
    OrderedYields<V, E>();
    UnresolvedNext(w, 0);
    var o: Ordered<V, E> := AllInProgress(w.outs, w.ready, pick);
    AllInProgressValid(w.outs, w.ready, pick);
    fut := new CollectThenTry<Ordered<V, E>, V, E>(
      o, NextOrdered, (x: Ordered<V, E>) => x.Valid(), (x: Ordered<V, E>) => x.Rest());
  }

  /** One poll of the collector over `FuturesOrdered`. Exactly the futures that are ready in it complete,
      in any order, so that it is Ready exactly when every future has been ready. */
  method PollOrdered<V(!new), E(!new)>(
    fut: CollectThenTry<Ordered<V, E>, V, E>, ghost w: Branches<V, E>, ghost polls: nat)
    returns (p: Poll<Result<seq<V>, E>>)
    requires Collecting(fut, w, polls)
    modifies fut
    ensures p == Answer(w, polls)
    ensures fut.stream.inProgress == Unresolved(w, polls + 1)
    ensures p.Pending? ==> Collecting(fut, w, polls + 1)
  {
    hide NextOrdered, Gather, Trail, Yields, CollectThenTry.Valid, Ordered.Valid, Ordered.Rest;
    hide Resolved, AllResolved, Unresolved;
    ghost var trail;
    p, trail := fut.Poll();
    PollCompletesReady(fut.next, fut.good, trail, fut.stream, if p.Ready? then Ready(None) else Pending);
    UnresolvedNext(w, polls);
    NoneUnresolved(w, polls + 1);
  }

  datatype Kind<!V(!new), !E(!new)> =
    | Small(elems: seq<MaybeDone<V, E>>)
    | Big(fut: CollectThenTry<Ordered<V, E>, V, E>)

  class JoinAllThenTry<V(!new), E(!new)> {
    const w: Branches<V, E>
    const futures: Futures<V, E>
    var kind: Kind<V, E>
    var polls: nat

    ghost function Parts(): set<object>
      reads this
    {
      match kind
      case Small(_) => {futures}
      case Big(fut) => {fut}
    }

    /** Between polls: in either form, what is still running are the futures that have not been ready. */
    ghost predicate Valid()
      reads this, Parts()
    {
      match kind
      case Small(elems) =>
        futures.w == w && |elems| == |w.outs| && forall i | 0 <= i < |elems| :: elems[i] == SlotAt(w, i, polls)
      case Big(fut) =>
        Collecting(fut, w, polls)
    }

    /** The form is chosen by the upper bound that the iterator promises, if it promises one; targets
        without atomic compare-and-swap always take the first. */
    constructor (w: Branches<V, E>, upper: Option<nat>, atomicCas: bool, pick: (nat, set<nat>) -> nat)
      requires !TakesSlice(upper, atomicCas) ==> Chooses(pick)
      ensures Valid() && fresh(Parts()) && this.w == w && polls == 0
      ensures kind.Small? <==> !atomicCas || (upper.Some? && upper.value <= 30)
    {
      hide Collecting;
      this.w := w;
      futures := new Futures(w);
      polls := 0;
      if TakesSlice(upper, atomicCas) {
        kind := Small(seq(|w.outs|, _ => Future));
      } else {
        var fut := CollectOrdered(w, pick);
        kind := Big(fut);
      }
    }

    /** One contract for both forms, to the poll: Pending until every future has been ready, and then all
        values in list order or the error listed first, in whatever order the futures complete. The
        slices poll each slot once, in list order. */
    method Poll() returns (p: Poll<Result<seq<V>, E>>)
      requires Valid()
      modifies this, Parts()
      ensures kind.Small? == old(kind).Small? && Parts() == old(Parts())
      ensures p == Answer(w, old(polls))
      ensures polls == old(polls) + 1
      ensures p.Pending? ==> Valid()
      ensures var order := Rotation(|w.outs|, 0);
              kind.Small? ==>
                && futures.visits == old(futures.visits) + order
                && futures.polled == old(futures.polled) + Live(w, order, old(polls))
    {
      hide Gather, Resolved, ResolvedBelow, AllResolved, Taken, Collecting, Rotation, Live;
      match kind {
        case Small(elems) =>
          var slots, allDone := PollSlots(futures, elems, polls);
          polls := polls + 1;
          if allDone {
            kind := Small([]);
            var result, _ := TakeOutputs(w.outs, slots);
            p := Ready(result);
          } else {
            kind := Small(slots);
            p := Pending;
          }
        case Big(fut) =>
          p := PollOrdered(fut, w, polls);
          polls := polls + 1;
      }
    }
  }

  // ----- All three, side by side -----

  /** Where a join stands that has been polled `polls` times, or until it was Ready. */
  function After<V, E>(w: Branches<V, E>, polls: nat): Poll<Result<seq<V>, E>> {
    if 0 < polls && AllResolved(w, polls) then Ready(Gather(w.outs)) else Pending
  }

  lemma AfterOneMore<V, E>(w: Branches<V, E>, polls: nat)
    ensures After(w, 0) == Pending
    ensures After(w, polls + 1) == if After(w, polls).Ready? then After(w, polls) else Answer(w, polls)
  {
    hide Gather, AllResolved;
    ResolvedStays(w, polls);
  }

  /** The macro, polled up to `polls` times until it is Ready. */
  method RunRotating<V, E>(outs: seq<Result<V, E>>, ready: (nat, nat) -> bool, polls: nat)
    returns (p: Poll<Result<seq<V>, E>>)
    requires 0 < |outs| < 0x1_0000_0000
    ensures p == After(Branches(outs, ready), polls)
  {
    hide After, Answer, Rotation, Live, Taken, SlotAt;
    var join := new JoinThenTry<V, E>(outs, ready);
    p := Pending;
    AfterOneMore(join.w, 0);
    for k := 0 to polls
      invariant fresh(join) && fresh(join.futures) && join.w == Branches(outs, ready)
      invariant p == After(join.w, k)
      invariant p.Pending? ==> join.Valid() && join.polls == k
    {
      AfterOneMore(join.w, k);
      if p.Pending? {
        p := join.Poll();
      }
    }
  }

  /** `join_all_then_try`, in whichever form. */
  method RunJoinAll<V(!new), E(!new)>(join: JoinAllThenTry<V, E>, polls: nat) returns (p: Poll<Result<seq<V>, E>>)
    requires join.Valid() && join.polls == 0
    modifies join, join.Parts()
    ensures p == After(join.w, polls)
  {
    hide After, Answer, SlotAt, Collecting, Rotation, Live;
    p := Pending;
    AfterOneMore(join.w, 0);
    for k := 0 to polls
      invariant join.Parts() == old(join.Parts())
      invariant p == After(join.w, k)
      invariant p.Pending? ==> join.Valid() && join.polls == k
    {
      AfterOneMore(join.w, k);
      if p.Pending? {
        p := join.Poll();
      }
    }
  }

  /** The slice form. */
  method RunSmall<V(!new), E(!new)>(outs: seq<Result<V, E>>, ready: (nat, nat) -> bool, polls: nat)
    returns (p: Poll<Result<seq<V>, E>>)
    ensures p == After(Branches(outs, ready), polls)
  {
    hide After;
    var join := new JoinAllThenTry<V, E>(Branches(outs, ready), None, false, (_, _) => 0);
    assert join.kind.Small?;
    p := RunJoinAll(join, polls);
  }

  /** The form over `FuturesOrdered`, the futures that are ready in a poll completing in any order. */
  method RunBig<V(!new), E(!new)>(outs: seq<Result<V, E>>, ready: (nat, nat) -> bool, pick: (nat, set<nat>) -> nat,
                                  polls: nat)
    returns (p: Poll<Result<seq<V>, E>>)
    requires Chooses(pick)
    ensures p == After(Branches(outs, ready), polls)
  {
    hide After;
    var join := new JoinAllThenTry<V, E>(Branches(outs, ready), None, true, pick);
    assert join.kind.Big?;
    p := RunJoinAll(join, polls);
  }

  /** The same futures joined in all three ways agree poll by poll, under every schedule and every order
      of completion: Ready exactly once every future has been ready, with the same value. */
  method JoinThreeWays<V(!new), E(!new)>(outs: seq<Result<V, E>>, ready: (nat, nat) -> bool,
                                         pick: (nat, set<nat>) -> nat, polls: nat)
    returns (rotating: Poll<Result<seq<V>, E>>, small: Poll<Result<seq<V>, E>>, big: Poll<Result<seq<V>, E>>)
    requires 0 < |outs| < 0x1_0000_0000 && Chooses(pick)
    ensures rotating == small == big
    ensures big == if forall i | 0 <= i < |outs| :: EverReady(ready, i, polls) then Ready(Gather(outs)) else Pending
  {
    hide Gather, Resolved;
    rotating := RunRotating(outs, ready, polls);
    small := RunSmall(outs, ready, polls);
    big := RunBig(outs, ready, pick, polls);
    forall i: nat | i < |outs| {
      ResolvedMeaning(Branches(outs, ready), i, polls);
    }
    assert polls == 0 ==> !EverReady(ready, 0, polls);
  }
}
