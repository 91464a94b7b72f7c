/** The bounded concurrent driver behind `for_each_concurrent_then_try`.

    The reference semantics is a *history*: what each iteration of the polling loop saw of the
    stream and of the set of futures in flight. It keeps no state at all; every question (what has
    been spawned, what is in flight, which error came first) is answered from the history alone.
    The class below is the real loop, with its mutable fields, and is proved to follow it.

    The environment is an adversary: one `Answer` for every iteration of every poll, none of them
    known in advance. A statement about every `h` with `Run(w, h)` is a statement about every
    schedule, every number of polls, and every point of a poll. */
module ForEachConcurrent {
  import opened Outcomes

  /** Whether the stream has something to say, and which future in flight completes, if any. */
  datatype Answer = Answer(streamReady: bool, finished: Option<nat>)

  /** A finite stream, the closure `f` (seen as the output that the future made by its `id`-th call
      will have), and the limit as the caller gave it. */
  datatype Scenario<!V, !E> = Scenario(
    items: seq<Result<V, E>>,
    f: (nat, V) -> Result<(), E>,
    limit: Option<nat>)

  datatype StreamSaw<V, E> = NotPolled | StreamPending | Yielded(item: Result<V, E>) | Ended
  datatype PoolSaw<E> = PoolPending | Finished(id: nat, output: Result<(), E>) | PoolEmpty
  datatype Saw<V, E> = Saw(stream: StreamSaw<V, E>, pool: PoolSaw<E>)

  /** The iterations so far, over all polls. */
  datatype History<V, E> = Start | Then(before: History<V, E>, answer: Answer, saw: Saw<V, E>)

  /** `Parked` is a return of Pending, `Done` a return of Ready. */
  datatype Status<E> = Looping | Parked | Done(result: Result<(), E>)

  // ----- Questions put to a history -----

  /** The items the stream has yielded. */
  function Items<V, E>(h: History<V, E>): seq<Result<V, E>> {
    match h
    case Start => []
    case Then(before, _, saw) => Items(before) + ItemOf(saw.stream)
  }

  function ItemOf<V, E>(s: StreamSaw<V, E>): seq<Result<V, E>> {
    if s.Yielded? then [s.item] else []
  }

  /** How often the stream has been polled. */
  function Asked<V, E>(h: History<V, E>): nat {
    match h
    case Start => 0
    case Then(before, _, saw) => Asked(before) + if saw.stream.NotPolled? then 0 else 1
  }

  /** The elements that have to have been handed to `f`: its `id`-th call is on `Taken(h)[id]`. */
  function Taken<V, E>(h: History<V, E>): seq<V> {
    Oks(Items(h))
  }

  /** The futures that have completed, in order of completion. */
  function Completed<V, E>(h: History<V, E>): seq<nat> {
    match h
    case Start => []
    case Then(before, _, saw) => Completed(before) + CompletionOf(saw.pool)
  }

  function CompletionOf<E>(s: PoolSaw<E>): seq<nat> {
    if s.Finished? then [s.id] else []
  }

  /** Every error, from the stream or from a future, in the order in which it was observed. */
  function Errors<V, E>(h: History<V, E>): seq<E> {
    match h
    case Start => []
    case Then(before, _, saw) => Errors(before) + ErrorsOf(saw)
  }

  function ErrorsOf<V, E>(s: Saw<V, E>): seq<E> {
    (if s.stream.Yielded? && s.stream.item.Err? then [s.stream.item.error] else []) +
    (if s.pool.Finished? && s.pool.output.Err? then [s.pool.output.error] else [])
  }

  /** The stream has returned None. */
  predicate Over<V, E>(h: History<V, E>) {
    h.Then? && (Over(h.before) || h.saw.stream.Ended?)
  }

  /** The calls below `n` that are not among `completed`. */
  function Open(n: nat, completed: seq<nat>): set<nat> {
    set id: nat | id < n && id !in completed
  }

  /** Spawned and not yet completed. */
  function InFlight<V, E>(h: History<V, E>): set<nat> {
    Open(|Taken(h)|, Completed(h))
  }

  predicate TookOrCompleted<V, E>(s: Saw<V, E>) {
    (s.stream.Yielded? && s.stream.item.Ok?) || s.pool.Finished?
  }

  /** The number of iterations that made progress. */
  function Progresses<V, E>(h: History<V, E>): nat {
    match h
    case Start => 0
    case Then(before, _, saw) => Progresses(before) + if TookOrCompleted(saw) then 1 else 0
  }

  function FirstOf<E>(errors: seq<E>): Option<E> {
    if errors == [] then None else Some(errors[0])
  }

  function Verdict<E>(first: Option<E>): Result<(), E> {
    match first
    case None => Ok(())
    case Some(e) => Err(e)
  }

  function StatusOf<V, E>(h: History<V, E>): Status<E>
    requires h.Then?
  {
    if h.saw.pool.PoolEmpty? && Over(h) then Done(Verdict(FirstOf(Errors(h))))
    else if TookOrCompleted(h.saw) then Looping
    else Parked
  }

  // ----- The reference semantics -----

  /** No limit, or a limit of zero, never holds the stream back. */
  predicate UnderLimit(limit: Option<nat>, inFlight: nat) {
    limit.None? || limit.value == 0 || inFlight < limit.value
  }

  function SeeStream<V, E>(w: Scenario<V, E>, h: History<V, E>, ready: bool): StreamSaw<V, E> {
    if Over(h) || !UnderLimit(w.limit, |InFlight(h)|) then NotPolled
    else if !ready then StreamPending
    else if |Items(h)| < |w.items| then Yielded(w.items[|Items(h)|])
    else Ended
  }

  /** The calls of `f` once an iteration has dealt with what it saw of the stream. */
  function Started<V, E>(h: History<V, E>, s: StreamSaw<V, E>): seq<V> {
    Oks(Items(h) + ItemOf(s))
  }

  function Flying<V, E>(h: History<V, E>, s: StreamSaw<V, E>): set<nat> {
    Open(|Started(h, s)|, Completed(h))
  }

  function See<V, E>(w: Scenario<V, E>, h: History<V, E>, a: Answer): Saw<V, E> {
    var s := SeeStream(w, h, a.streamReady);
    var flying := Flying(h, s);
    if flying == {} then Saw(s, PoolEmpty)
    else if a.finished.Some? && a.finished.value in flying then
      Saw(s, Finished(a.finished.value, w.f(a.finished.value, Started(h, s)[a.finished.value])))
    else Saw(s, PoolPending)
  }

  function Next<V, E>(w: Scenario<V, E>, h: History<V, E>, a: Answer): History<V, E> {
    Then(h, a, See(w, h, a))
  }

  /** `h` is what some adversary makes the driver see. */
  ghost predicate Run<V, E>(w: Scenario<V, E>, h: History<V, E>) {
    h.Then? ==> Run(w, h.before) && h == Next(w, h.before, h.answer)
  }

  lemma StartedIs<V, E>(h: History<V, E>, s: StreamSaw<V, E>)
    ensures Started(h, s) == if s.Yielded? && s.item.Ok? then Taken(h) + [s.item.value] else Taken(h)
  {
    if s.Yielded? {
      Snoc(Items(h), s.item);
    } else {
      assert Items(h) + ItemOf(s) == Items(h);
    }
  }

  lemma OpenOneMore(n: nat, completed: seq<nat>)
    requires forall id | id in completed :: id < n
    ensures Open(n + 1, completed) == Open(n, completed) + {n}
    ensures |Open(n + 1, completed)| == |Open(n, completed)| + 1
  {}

  lemma OpenBelow(n: nat, completed: seq<nat>)
    ensures forall id | id in Open(n, completed) :: id < n
  {}

  lemma OpenOneLess(n: nat, completed: seq<nat>, id: nat)
    requires id in Open(n, completed)
    ensures Open(n, completed + [id]) == Open(n, completed) - {id}
    ensures |Open(n, completed + [id])| == |Open(n, completed)| - 1
  {}

  // ----- Conservation, over every run -----

  ghost predicate Distinct(ids: seq<nat>) {
    forall i, j | 0 <= i < j < |ids| :: ids[i] != ids[j]
  }

  ghost predicate Spawned(ids: seq<nat>, n: nat) {
    forall id | id in ids :: id < n
  }

  /** Every future that completed was spawned, and gave the output of its own call of `f`. */
  ghost predicate OwnOutputs<V, E>(w: Scenario<V, E>, h: History<V, E>) {
    match h
    case Start => true
    case Then(before, _, saw) =>
      && OwnOutputs(w, before)
      && (saw.pool.Finished? ==>
            saw.pool.id < |Taken(h)| && saw.pool.output == w.f(saw.pool.id, Taken(h)[saw.pool.id]))
  }

  /** Nothing is lost or duplicated: the items seen are a prefix of the stream; every future that
      completed was spawned and completed once; the rest is in flight, within the limit. */
  ghost predicate Conserved<V, E>(w: Scenario<V, E>, h: History<V, E>) {
    && Items(h) <= w.items
    && (Over(h) ==> Items(h) == w.items)
    && Spawned(Completed(h), |Taken(h)|)
    && Distinct(Completed(h))
    && |InFlight(h)| + |Completed(h)| == |Taken(h)|
    && (w.limit.Some? && 0 < w.limit.value ==> |InFlight(h)| <= w.limit.value)
    && OwnOutputs(w, h)
  }

  lemma {:induction false} Conservation<V, E>(w: Scenario<V, E>, h: History<V, E>)
    requires Run(w, h)
    ensures Conserved(w, h)
  {
    match h
    case Start =>
      assert InFlight<V, E>(Start) == {};
    case Then(before, a, _) =>
      Conservation(w, before);
      ConservedStep(w, before, a);
  }

  lemma FlyingStep<V, E>(w: Scenario<V, E>, h: History<V, E>, s: StreamSaw<V, E>)
    requires Conserved(w, h)
    ensures Flying(h, s) == InFlight(h) + if s.Yielded? && s.item.Ok? then {|Taken(h)|} else {}
    ensures |Flying(h, s)| == |InFlight(h)| + if s.Yielded? && s.item.Ok? then 1 else 0
  {
    hide Oks, Open, Errors, Over, OwnOutputs;
    StartedIs(h, s);
    if s.Yielded? && s.item.Ok? {
      OpenOneMore(|Taken(h)|, Completed(h));
    }
  }

  /** How one iteration changes the set in flight. */
  lemma InFlightStep<V, E>(w: Scenario<V, E>, h: History<V, E>, a: Answer)
    ensures var s := See(w, h, a);
            && InFlight(Next(w, h, a)) == Flying(h, s.stream) - (if s.pool.Finished? then {s.pool.id} else {})
            && |InFlight(Next(w, h, a))| == |Flying(h, s.stream)| - if s.pool.Finished? then 1 else 0
  {
    hide Oks, Open, Errors, Over;
    var s := See(w, h, a);
    assert Taken(Next(w, h, a)) == Started(h, s.stream);
    if s.pool.Finished? {
      OpenOneLess(|Started(h, s.stream)|, Completed(h), s.pool.id);
    } else {
      assert Completed(h) + CompletionOf(s.pool) == Completed(h);
    }
  }

  /** One iteration, in numbers. */
  lemma Counts<V, E>(w: Scenario<V, E>, h: History<V, E>, a: Answer)
    requires Conserved(w, h)
    ensures var s := See(w, h, a);
            var started := |InFlight(h)| + if s.stream.Yielded? && s.stream.item.Ok? then 1 else 0;
            && |InFlight(Next(w, h, a))| == started - (if s.pool.Finished? then 1 else 0)
            && (s.pool.PoolEmpty? <==> started == 0)
            && (s.stream.NotPolled? && !Over(h) ==> 0 < |InFlight(h)|)
  {
    var s := See(w, h, a);
    FlyingStep(w, h, s.stream);
    InFlightStep(w, h, a);
  }

  lemma ConservedStep<V, E>(w: Scenario<V, E>, h: History<V, E>, a: Answer)
    requires Conserved(w, h)
    ensures Conserved(w, Next(w, h, a))
  {
    hide Items, Completed, Over, Taken, InFlight, OwnOutputs, Distinct, Spawned, See, Next;
    ItemsStep(w, h, a);
    CompletedStep(w, h, a);
    CountStep(w, h, a);
    OwnOutputStep(w, h, a);
  }

  lemma CountStep<V, E>(w: Scenario<V, E>, h: History<V, E>, a: Answer)
    requires Conserved(w, h)
    ensures var h' := Next(w, h, a);
            && |InFlight(h')| + |Completed(h')| == |Taken(h')|
            && (w.limit.Some? && 0 < w.limit.value ==> |InFlight(h')| <= w.limit.value)
  {
    hide Oks, Open, Over, InFlight, OwnOutputs, Distinct, Spawned, Flying;
    var s := See(w, h, a).stream;
    Counts(w, h, a);
    assert s == SeeStream(w, h, a.streamReady);
    assert Taken(Next(w, h, a)) == Started(h, s);
    StartedIs(h, s);
  }

  lemma OwnOutputStep<V, E>(w: Scenario<V, E>, h: History<V, E>, a: Answer)
    requires OwnOutputs(w, h)
    ensures OwnOutputs(w, Next(w, h, a))
  {
    hide Oks, Open, Over, See;
    OwnOutput(w, h, a);
    assert Taken(Next(w, h, a)) == Started(h, See(w, h, a).stream);
  }

  /** A future that completes was spawned, and gives the output of its own call of `f`. */
  lemma OwnOutput<V, E>(w: Scenario<V, E>, h: History<V, E>, a: Answer)
    ensures var saw, started := See(w, h, a), Started(h, See(w, h, a).stream);
            saw.pool.Finished? ==> saw.pool.id < |started| && saw.pool.output == w.f(saw.pool.id, started[saw.pool.id])
  {
    hide Oks;
  }

  lemma ItemsStep<V, E>(w: Scenario<V, E>, h: History<V, E>, a: Answer)
    requires Items(h) <= w.items && (Over(h) ==> Items(h) == w.items)
    ensures var h' := Next(w, h, a); Items(h') <= w.items && (Over(h') ==> Items(h') == w.items)
  {
    hide Oks, Open, Completed, Flying, Started, InFlight;
    var s := See(w, h, a).stream;
    assert s == SeeStream(w, h, a.streamReady);
    assert Items(Next(w, h, a)) == Items(h) + ItemOf(s);
  }

  lemma CompletedStep<V, E>(w: Scenario<V, E>, h: History<V, E>, a: Answer)
    requires Spawned(Completed(h), |Taken(h)|) && Distinct(Completed(h))
    ensures var h' := Next(w, h, a); Spawned(Completed(h'), |Taken(h')|) && Distinct(Completed(h'))
  {
    StartedIs(h, See(w, h, a).stream);
  }

  // ----- What Ready means -----

  /** Ready is returned only once the stream has returned None and every future has completed, and
      carries the first error observed. */
  lemma {:induction false} ReadyMeaning<V, E>(w: Scenario<V, E>, h: History<V, E>)
    requires Run(w, h) && h.Then? && StatusOf(h).Done?
    ensures Over(h) && Items(h) == w.items && Taken(h) == Oks(w.items)
    ensures InFlight(h) == {} && |Completed(h)| == |Oks(w.items)|
    ensures forall id: nat | id < |Oks(w.items)| :: id in Completed(h)
    ensures StatusOf(h).result == if Errors(h) == [] then Ok(()) else Err(Errors(h)[0])
  {
    Conservation(w, h);
    Conservation(w, h.before);
    Counts(w, h.before, h.answer);
    forall id: nat | id < |Oks(w.items)| ensures id in Completed(h) {
      assert id !in InFlight(h);
    }
  }

  predicate AllOk<V, E>(items: seq<Result<V, E>>) {
    forall i | 0 <= i < |items| :: items[i].Ok?
  }

  predicate OutputsOk<V, E>(w: Scenario<V, E>, taken: seq<V>, completed: seq<nat>) {
    forall id | id in completed && id < |taken| :: w.f(id, taken[id]).Ok?
  }

  predicate NoErrors<V, E>(w: Scenario<V, E>, h: History<V, E>) {
    AllOk(Items(h)) && OutputsOk(w, Taken(h), Completed(h))
  }

  lemma {:induction false} NoErrorsObserved<V, E>(w: Scenario<V, E>, h: History<V, E>)
    requires Run(w, h)
    ensures Errors(h) == [] <==> NoErrors(w, h)
  {
    if h.Then? {
      NoErrorsObserved(w, h.before);
      Conservation(w, h.before);
      NoErrorsStep(w, h.before, h.answer, h.saw);
    }
  }

  lemma NoErrorsStep<V, E>(w: Scenario<V, E>, before: History<V, E>, a: Answer, saw: Saw<V, E>)
    requires Spawned(Completed(before), |Taken(before)|)
    requires saw == See(w, before, a)
    ensures var h := Then(before, a, saw);
            && (Errors(h) == [] <==> Errors(before) == [] && ErrorsOf(saw) == [])
            && (NoErrors(w, h) <==> NoErrors(w, before) && ErrorsOf(saw) == [])
  {
    hide Oks, Over, See;
    AllOkStep(Items(before), saw.stream);
    OwnOutput(w, before, a);
    assert OutputsOk(w, Started(before, saw.stream), Completed(before) + CompletionOf(saw.pool)) <==>
           OutputsOk(w, Taken(before), Completed(before)) && (saw.pool.Finished? ==> saw.pool.output.Ok?) by {
      StartedIs(before, saw.stream);
      OutputsOkStep(w, Taken(before), Started(before, saw.stream), Completed(before), saw.pool);
    }
  }

  lemma AllOkStep<V, E>(items: seq<Result<V, E>>, s: StreamSaw<V, E>)
    ensures AllOk(items + ItemOf(s)) <==> AllOk(items) && (s.Yielded? ==> s.item.Ok?)
  {
    assert forall i | 0 <= i < |items| :: (items + ItemOf(s))[i] == items[i];
    assert s.Yielded? ==> (items + ItemOf(s))[|items|] == s.item;
  }

  lemma OutputsOkStep<V, E>(w: Scenario<V, E>, taken: seq<V>, taken': seq<V>, completed: seq<nat>, s: PoolSaw<E>)
    requires taken <= taken' && Spawned(completed, |taken|)
    requires s.Finished? ==> s.id < |taken'| && s.output == w.f(s.id, taken'[s.id])
    ensures OutputsOk(w, taken', completed + CompletionOf(s)) <==>
            OutputsOk(w, taken, completed) && (s.Finished? ==> s.output.Ok?)
  {
    assert s.Finished? ==> s.id in completed + CompletionOf(s);
    assert forall id | id in completed :: id in completed + CompletionOf(s);
  }

  /** Whether the run succeeds does not depend on the schedule: it does exactly when every item is Ok
      and so is the output of every future made from them. */
  lemma {:induction false} SucceedsIff<V, E>(w: Scenario<V, E>, h: History<V, E>)
    requires Run(w, h) && h.Then? && StatusOf(h).Done?
    ensures StatusOf(h).result.Ok? <==>
            && (forall i | 0 <= i < |w.items| :: w.items[i].Ok?)
            && (forall id: nat | id < |Oks(w.items)| :: w.f(id, Oks(w.items)[id]).Ok?)
  {
    ReadyMeaning(w, h);
    NoErrorsObserved(w, h);
  }

  // ----- What Pending means -----

  /** Whoever answered Pending in the final iteration keeps the waker. */
  predicate LeavesWaker<V, E>(s: Saw<V, E>) {
    s.stream.StreamPending? || s.pool.PoolPending?
  }

  /** A poll returned Pending with nobody left to wake the task. */
  predicate Stalled<V, E>(h: History<V, E>) {
    h.Then? && StatusOf(h).Parked? && !LeavesWaker(h.saw)
  }

  /** Somebody who kept a waker when `h` returned Pending has now something to say: the stream, or the
      set of futures. */
  predicate Woken<V, E>(h: History<V, E>, a: Answer)
    requires h.Then?
  {
    || (h.saw.stream.StreamPending? && a.streamReady)
    || (h.saw.pool.PoolPending? && a.finished.Some? && a.finished.value in InFlight(h))
  }

  /** The task is polled again only when it has been woken, and not after it was Ready. */
  predicate WakeDriven<V, E>(h: History<V, E>) {
    h.Then? ==>
      && WakeDriven(h.before)
      && (h.before.Then? ==>
            match StatusOf(h.before)
            case Looping => true
            case Parked => Woken(h.before, h.answer)
            case Done(_) => false)
  }

  /** The only way to stall is a stream error with nothing in flight. */
  lemma {:induction false} StalledExactly<V, E>(w: Scenario<V, E>, h: History<V, E>)
    requires Run(w, h)
    ensures h.Then? && StatusOf(h).Parked? ==>
              (Stalled(h) <==> h.saw.stream.Yielded? && h.saw.stream.item.Err? && InFlight(h) == {})
  {
    if h.Then? {
      Conservation(w, h.before);
      Counts(w, h.before, h.answer);
      assert InFlight(h) == {} <==> |InFlight(h)| == 0;
    }
  }

  /** Some adversary can stall the driver on this scenario. */
  ghost predicate CanStall<V(!new), E(!new)>(w: Scenario<V, E>) {
    exists h :: Run(w, h) && Stalled(h)
  }

  /** A wake-up can be lost exactly on the streams that contain an error, whatever `f` and the limit. */
  lemma StallsIffStreamHasError<V(!new), E(!new)>(w: Scenario<V, E>)
    ensures CanStall(w) <==> exists i :: 0 <= i < |w.items| && w.items[i].Err?
  {
    if CanStall(w) {
      var h :| Run(w, h) && Stalled(h);
      StallNeedsError(w, h);
    }
    FirstErrMeaning(w.items);
    if FirstErr(w.items).Some? {
      var i :| 0 <= i < |w.items| && w.items[i].Err? && forall j | 0 <= j < i :: w.items[j].Ok?;
      var h := StallAfter(w, i);
    }
  }

  lemma StallNeedsError<V, E>(w: Scenario<V, E>, h: History<V, E>)
    requires Run(w, h) && Stalled(h)
    ensures exists i :: 0 <= i < |w.items| && w.items[i].Err?
  {
    hide Oks, Open, Completed, Errors;
    StalledExactly(w, h);
    Conservation(w, h);
    assert w.items[|Items(h.before)|].Err?;
  }

  lemma StallAfter<V, E>(w: Scenario<V, E>, i: nat) returns (h: History<V, E>)
    requires i < |w.items| && w.items[i].Err? && forall j | 0 <= j < i :: w.items[j].Ok?
    ensures Run(w, h) && Stalled(h) && WakeDriven(h)
  {
    hide Oks, Open, Errors, Completed, OwnOutputs;
    var before := Prompt(w, i);
    var a := Answer(true, None);
    h := Next(w, before, a);
    assert h.saw.stream == Yielded(w.items[i]);
    Counts(w, before, a);
    assert h.saw.pool.PoolEmpty? && !Over(h);
  }

  /** If the stream yields `n` elements and every future completes at once, nothing stays in flight. */
  lemma {:induction false} Prompt<V, E>(w: Scenario<V, E>, n: nat) returns (h: History<V, E>)
    requires n <= |w.items| && forall j | 0 <= j < n :: w.items[j].Ok?
    ensures Run(w, h) && Conserved(w, h) && WakeDriven(h) && (h.Then? ==> StatusOf(h).Looping?)
    ensures |Items(h)| == n && !Over(h) && |Taken(h)| == n && |InFlight(h)| == 0
  {
    if n == 0 {
      h := Start;
      Conservation(w, h);
    } else {
      var before := Prompt(w, n - 1);
      h := PromptStep(w, before);
    }
  }

  lemma PromptStep<V, E>(w: Scenario<V, E>, before: History<V, E>) returns (h: History<V, E>)
    requires WakeDriven(before) && (before.Then? ==> StatusOf(before).Looping?)
    requires Run(w, before) && Conserved(w, before) && !Over(before) && |InFlight(before)| == 0
    requires |Items(before)| == |Taken(before)| < |w.items| && w.items[|Items(before)|].Ok?
    ensures WakeDriven(h) && h.Then? && StatusOf(h).Looping?
    ensures Run(w, h) && Conserved(w, h) && !Over(h) && |InFlight(h)| == 0
    ensures |Items(h)| == |Taken(h)| == |Items(before)| + 1
  {
    hide Oks, Open, Completed, Errors, OwnOutputs;
    var n := |Taken(before)|;
    var a := Answer(true, Some(n));
    h := Next(w, before, a);
    ConservedStep(w, before, a);
    Counts(w, before, a);
    assert h.saw.stream == Yielded(w.items[n]);
    StartedIs(before, h.saw.stream);
    FlyingStep(w, before, h.saw.stream);
    assert n in Flying(before, h.saw.stream);
  }

  // ----- Termination and progress -----

  function Left<V, E>(w: Scenario<V, E>, h: History<V, E>): int {
    2 * (|w.items| - |Items(h)|) + |InFlight(h)|
  }

  /** An iteration never adds work, and one that loops back removes some: every poll terminates. */
  lemma {:induction false} LoopingDecreases<V, E>(w: Scenario<V, E>, h: History<V, E>, a: Answer)
    requires Run(w, h)
    ensures var h' := Next(w, h, a);
            && 0 <= Left(w, h') <= Left(w, h)
            && (StatusOf(h').Looping? ==> Left(w, h') < Left(w, h))
  {
    Conservation(w, h);
    Conservation(w, Next(w, h, a));
    Counts(w, h, a);
  }

  /** Over a whole run, at most two iterations per Ok element make progress. */
  lemma {:induction false} ProgressBound<V, E>(w: Scenario<V, E>, h: History<V, E>)
    requires Run(w, h)
    ensures Progresses(h) <= 2 * |Oks(w.items)|
  {
    Conservation(w, h);
    ProgressCounted(h);
    assert w.items[..|Items(h)|] == Items(h);
    OksOfPrefix(w.items, |Items(h)|);
  }

  lemma {:induction false} ProgressCounted<V, E>(h: History<V, E>)
    ensures Progresses(h) <= |Taken(h)| + |Completed(h)|
  {
    if h.Then? {
      ProgressCounted(h.before);
      StartedIs(h.before, h.saw.stream);
    }
  }

  /** After `h`, the adversary holds nothing back. */
  predicate Cooperates<V, E>(w: Scenario<V, E>, h: History<V, E>, a: Answer) {
    var flying := Flying(h, SeeStream(w, h, a.streamReady));
    a.streamReady && (flying == {} || (a.finished.Some? && a.finished.value in flying))
  }

  function Cooperations<V, E>(w: Scenario<V, E>, h: History<V, E>): nat {
    match h
    case Start => 0
    case Then(before, a, _) => Cooperations(w, before) + if Cooperates(w, before, a) then 1 else 0
  }

  predicate NeverDone<V, E>(h: History<V, E>) {
    h.Then? ==> NeverDone(h.before) && !StatusOf(h).Done?
  }

  function StillOpen<V, E>(h: History<V, E>): nat {
    if Over(h) then 0 else 1
  }

  lemma CooperationPays<V, E>(w: Scenario<V, E>, h: History<V, E>, a: Answer)
    requires Run(w, h) && !StatusOf(Next(w, h, a)).Done?
    ensures var h' := Next(w, h, a);
            Left(w, h') + StillOpen(h') + (if Cooperates(w, h, a) then 1 else 0) <= Left(w, h) + StillOpen(h)
  {
    Conservation(w, h);
    Counts(w, h, a);
  }

  lemma {:induction false} NotDoneBound<V, E>(w: Scenario<V, E>, h: History<V, E>)
    requires Run(w, h) && NeverDone(h)
    ensures Left(w, h) + StillOpen(h) + Cooperations(w, h) <= 2 * |w.items| + 1
  {
    match h
    case Start =>
      assert InFlight<V, E>(Start) == {};
    case Then(before, a, _) =>
      NotDoneBound(w, before);
      CooperationPays(w, before, a);
  }

  /** However the adversary delays it, the driver has finished once it has been let through
      `2 * |items| + 2` iterations. */
  lemma {:induction false} RunsToCompletion<V, E>(w: Scenario<V, E>, h: History<V, E>)
    requires Run(w, h) && 2 * |w.items| + 2 <= Cooperations(w, h)
    ensures !NeverDone(h)
  {
    if NeverDone(h) {
      NotDoneBound(w, h);
      Conservation(w, h);
    }
  }

  // ----- Concurrency -----

  /** Pending is returned exactly when an iteration took no Ok element, completed no future, and did not
      find both the stream over and nothing in flight. */
  lemma {:induction false} PendingExactly<V, E>(w: Scenario<V, E>, h: History<V, E>)
    requires Run(w, h) && h.Then?
    ensures StatusOf(h).Parked? <==>
            && !(h.saw.stream.Yielded? && h.saw.stream.item.Ok?)
            && !h.saw.pool.Finished?
            && !(Over(h) && InFlight(h) == {})
  {
    Conservation(w, h.before);
    Counts(w, h.before, h.answer);
    assert InFlight(h) == {} <==> |InFlight(h)| == 0;
  }

  /** The driver is as concurrent as it is allowed to be. It leaves off only when the stream is over or
      has nothing to give, or the limit has been reached, or the stream has just yielded an error. */
  lemma {:induction false} AsConcurrentAsAllowed<V, E>(w: Scenario<V, E>, h: History<V, E>)
    requires Run(w, h) && h.Then? && StatusOf(h).Parked?
    ensures || Over(h)
            || h.saw.stream.StreamPending?
            || (w.limit.Some? && 0 < w.limit.value == |InFlight(h)|)
            || (h.saw.stream.Yielded? && h.saw.stream.item.Err?)
  {
    Conservation(w, h.before);
    Counts(w, h.before, h.answer);
  }

  lemma MayLeaveOff<V, E>(w: Scenario<V, E>, h: History<V, E>, a: Answer)
    requires Run(w, h)
    ensures var h' := Next(w, h, a);
            StatusOf(h').Parked? ==>
              || Over(h')
              || h'.saw.stream.StreamPending?
              || (w.limit.Some? && 0 < w.limit.value == |InFlight(h')|)
              || (h'.saw.stream.Yielded? && h'.saw.stream.item.Err?)
  {
    if StatusOf(Next(w, h, a)).Parked? {
      AsConcurrentAsAllowed(w, Next(w, h, a));
    }
  }

  /** Without errors and with an eager stream, as many futures are started as the limit allows, before
      any of them has to complete. */
  lemma {:induction false} StartsUpToTheLimit<V, E>(w: Scenario<V, E>, h: History<V, E>)
    requires Run(w, h) && h.Then? && StatusOf(h).Parked? && AllOk(w.items) && !h.saw.stream.StreamPending?
    ensures |InFlight(h)| == |w.items| - |Completed(h)| || (w.limit.Some? && 0 < w.limit.value == |InFlight(h)|)
  {
    AsConcurrentAsAllowed(w, h);
    Conservation(w, h);
    Conservation(w, h.before);
    if Over(h) {
      OksOfAllOk(w.items);
    } else if h.saw.stream.Yielded? {
      assert h.saw.stream.item == w.items[|Items(h.before)|];
    }
  }

  // ----- A scheduler that waits for wakers -----

  function Length<V, E>(h: History<V, E>): nat {
    match h
    case Start => 0
    case Then(before, _, _) => Length(before) + 1
  }

  /** An iteration that is still owed to the task without any wake-up. */
  function Running<V, E>(h: History<V, E>): nat {
    if h.Start? || StatusOf(h).Looping? then 1 else 0
  }

  predicate IsDone<V, E>(h: History<V, E>) {
    h.Then? && StatusOf(h).Done?
  }

  /** The stream that answered Pending is polled again, as long as it is awaited. */
  lemma StreamAskedAgain<V, E>(w: Scenario<V, E>, h: History<V, E>, a: Answer)
    requires Run(w, h) && h.Then? && StatusOf(h).Parked? && h.saw.stream.StreamPending? && a.streamReady
    ensures See(w, h, a).stream.Yielded? || (See(w, h, a).stream.Ended? && !Over(h))
  {
    hide Oks, Open, Errors, Completed, Items;
    Conservation(w, h.before);
    Counts(w, h.before, h.answer);
    assert SeeStream(w, h.before, h.answer.streamReady).StreamPending?;
  }

  /** Whoever wakes the task has work for it. */
  lemma WokenWorks<V, E>(w: Scenario<V, E>, h: History<V, E>, a: Answer)
    requires Run(w, h) && h.Then? && StatusOf(h).Parked? && Woken(h, a)
    ensures Left(w, Next(w, h, a)) + StillOpen(Next(w, h, a)) < Left(w, h) + StillOpen(h)
  {
    hide Oks, Open, Errors, Completed;
    Conservation(w, h);
    Counts(w, h, a);
    if h.saw.stream.StreamPending? && a.streamReady {
      StreamAskedAgain(w, h, a);
    } else {
      FlyingStep(w, h, See(w, h, a).stream);
      assert See(w, h, a).pool.Finished?;
    }
  }

  lemma WakePays<V, E>(w: Scenario<V, E>, h: History<V, E>, a: Answer)
    requires Run(w, h) && WakeDriven(Next(w, h, a)) && !IsDone(Next(w, h, a))
    ensures var h' := Next(w, h, a);
            2 * (Left(w, h') + StillOpen(h')) + Running(h') < 2 * (Left(w, h) + StillOpen(h)) + Running(h)
  {
    hide Left, See, Oks;
    LoopingDecreases(w, h, a);
    if h.Then? && StatusOf(h).Parked? {
      WokenWorks(w, h, a);
    }
  }

  lemma {:induction false} WakeBound<V, E>(w: Scenario<V, E>, h: History<V, E>)
    requires Run(w, h) && WakeDriven(h) && !IsDone(h)
    ensures Length(h) + 2 * (Left(w, h) + StillOpen(h)) + Running(h) <= 4 * |w.items| + 3
  {
    match h
    case Start =>
      assert InFlight<V, E>(Start) == {};
    case Then(before, a, _) =>
      WakeBound(w, before);
      WakePays(w, before, a);
  }

  /** The scheduler has a reason to go on: the poll has not returned, or somebody can wake the task. */
  ghost predicate CanGoOn<V, E>(w: Scenario<V, E>, h: History<V, E>) {
    exists a :: WakeDriven(Next(w, h, a))
  }

  /** Without errors in the stream, wake-ups are enough: under a scheduler that polls only then, the run
      goes on for exactly as long as it is not Ready, and that is not long. */
  lemma {:induction false} WakersBringItHome<V, E>(w: Scenario<V, E>, h: History<V, E>)
    requires Run(w, h) && WakeDriven(h) && AllOk(w.items)
    ensures Length(h) <= 4 * |w.items| + 4
    ensures CanGoOn(w, h) <==> !IsDone(h)
  {
    hide Oks, Errors;
    if !IsDone(h) {
      WakeBound(w, h);
      Conservation(w, h);
      var a := Wakeful(w, h);
      assert WakeDriven(Next(w, h, a));
    } else {
      WakeBound(w, h.before);
      Conservation(w, h.before);
    }
  }

  /** Somebody who can wake the task. */
  lemma Wakeful<V, E>(w: Scenario<V, E>, h: History<V, E>) returns (a: Answer)
    requires Run(w, h) && WakeDriven(h) && AllOk(w.items) && !IsDone(h)
    ensures WakeDriven(Next(w, h, a))
  {
    hide Oks, Open, Errors, Completed, Items;
    a := Answer(true, None);
    if h.Then? && StatusOf(h).Parked? && !h.saw.stream.StreamPending? {
      if Stalled(h) {
        StallNeedsError(w, h);
        assert false;
      }
      Conservation(w, h.before);
      Counts(w, h.before, h.answer);
      assert InFlight(h) != {};
      var id :| id in InFlight(h);
      a := Answer(true, Some(id));
    }
  }

  /** A scheduler that polls only when woken always gets the driver home. */
  ghost predicate WakersSuffice<V(!new), E(!new)>(w: Scenario<V, E>) {
    forall h :: Run(w, h) && WakeDriven(h) && !IsDone(h) ==> CanGoOn(w, h)
  }

  /** It does on exactly the streams without errors, whatever `f` and the limit. */
  lemma WakersSufficeIff<V(!new), E(!new)>(w: Scenario<V, E>)
    ensures WakersSuffice(w) <==> AllOk(w.items)
  {
    if AllOk(w.items) {
      forall h | Run(w, h) && WakeDriven(h) && !IsDone(h) ensures CanGoOn(w, h) {
        WakersBringItHome(w, h);
      }
    } else {
      FirstErrMeaning(w.items);
      var i :| 0 <= i < |w.items| && w.items[i].Err? && forall j | 0 <= j < i :: w.items[j].Ok?;
      var h := StallAfter(w, i);
      assert !CanGoOn(w, h);
    }
  }

  // ----- is_terminated -----

  predicate Terminated<V, E>(h: History<V, E>) {
    Over(h) && InFlight(h) == {}
  }

  /** False at creation and at every Pending return, true at every Ready return. */
  lemma {:induction false} TerminatedAgrees<V, E>(w: Scenario<V, E>, h: History<V, E>)
    requires Run(w, h)
    ensures h.Start? ==> !Terminated(h)
    ensures h.Then? && !StatusOf(h).Looping? ==> (Terminated(h) <==> StatusOf(h).Done?)
  {
    if h.Then? {
      Conservation(w, h.before);
      Counts(w, h.before, h.answer);
      assert InFlight(h) == {} <==> |InFlight(h)| == 0;
    }
  }

  // ----- The driver itself -----

  /** A limit of zero is no limit. */
  function NonZero(limit: Option<nat>): Option<nat> {
    if limit == Some(0) then None else limit
  }

  /** One poll of a set of futures: None only when it is empty, otherwise the output of one member or
      nothing yet. */
  function PollNext<V, E>(futures: set<nat>, calls: seq<V>, f: (nat, V) -> Result<(), E>, finished: Option<nat>)
    : Poll<Option<(nat, Result<(), E>)>>
    requires forall id | id in futures :: id < |calls|
  {
    if futures == {} then Ready(None)
    else if finished.Some? && finished.value in futures then
      Ready(Some((finished.value, f(finished.value, calls[finished.value]))))
    else Pending
  }

  /** `h` continues `h0` by iterations that all took an Ok element or completed a future. */
  ghost predicate LoopedSince<V, E>(h0: History<V, E>, h: History<V, E>) {
    h == h0 || (h.Then? && ((h.saw.stream.Yielded? && h.saw.stream.item.Ok?) || h.saw.pool.Finished?) && LoopedSince(h0, h.before))
  }

  lemma PullFacts<V, E>(w: Scenario<V, E>, h: History<V, E>, ready: bool)
    requires Run(w, h)
    ensures var s := SeeStream(w, h, ready);
            && Started(h, s) == (if s.Yielded? && s.item.Ok? then Taken(h) + [s.item.value] else Taken(h))
            && Flying(h, s) == InFlight(h) + (if s.Yielded? && s.item.Ok? then {|Taken(h)|} else {})
            && (forall id | id in InFlight(h) :: id < |Taken(h)|)
            && |Items(h)| + |ItemOf(s)| <= |w.items|
            && (s.Yielded? ==> w.items[|Items(h)|..][1..] == w.items[|Items(h)| + 1..])
            && (forall k: nat :: UnderLimit(w.limit, k) <==> NonZero(w.limit).None? || NonZero(w.limit).value > k)
  {
    hide Oks, Errors, Completed;
    Conservation(w, h);
    OpenBelow(|Taken(h)|, Completed(h));
    var s := SeeStream(w, h, ready);
    StartedIs(h, s);
    FlyingStep(w, h, s);
  }

  lemma DrainFacts<V, E>(w: Scenario<V, E>, h: History<V, E>, a: Answer)
    requires Run(w, h)
    ensures var s, h' := See(w, h, a), Next(w, h, a);
            && Run(w, h') && s.stream == SeeStream(w, h, a.streamReady)
            && |Items(h')| == |Items(h)| + |ItemOf(s.stream)|
            && Asked(h') == Asked(h) + (if s.stream.NotPolled? then 0 else 1)
            && Taken(h') == Started(h, s.stream)
            && InFlight(h') == Flying(h, s.stream) - (if s.pool.Finished? then {s.pool.id} else {})
            && (forall id | id in Flying(h, s.stream) :: id < |Started(h, s.stream)|)
            && Over(h') == (Over(h) || s.stream.Ended?)
            && PollNext(Flying(h, s.stream), Started(h, s.stream), w.f, a.finished) == (
                 match s.pool
                 case PoolPending => Pending
                 case PoolEmpty => Ready(None)
                 case Finished(id, output) => Ready(Some((id, output))))
            && FirstOf(Errors(h')) == (
                 if Errors(h) != [] then FirstOf(Errors(h))
                 else if s.stream.Yielded? && s.stream.item.Err? then Some(s.stream.item.error)
                 else if s.pool.Finished? && s.pool.output.Err? then Some(s.pool.output.error)
                 else None)
  {
    hide Oks, Open;
    Conservation(w, h);
    InFlightStep(w, h, a);
    assert forall id | id in Flying(h, See(w, h, a).stream) :: id < |Started(h, See(w, h, a).stream)| by {
      OpenBelow(|Started(h, See(w, h, a).stream)|, Completed(h));
    }
  }

  class ForEachConcurrentThenTry<V, E> {
    ghost const w: Scenario<V, E>
    ghost var h: History<V, E>      // everything seen so far
    const f: (nat, V) -> Result<(), E>
    const limit: Option<nat>
    var stream: Option<seq<Result<V, E>>>
    var futures: set<nat>           // in flight, each named by the call of `f` that made it
    var firstError: Option<E>
    var calls: seq<V>               // the arguments `f` has been called on
    ghost var asked: nat            // how often the stream has been polled

    ghost predicate Valid()
      reads this
    {
      && Run(w, h)
      && f == w.f
      && limit == NonZero(w.limit)
      && |Items(h)| <= |w.items|
      && stream == (if Over(h) then None else Some(w.items[|Items(h)|..]))
      && calls == Taken(h)
      && asked == Asked(h)
      && futures == InFlight(h)
      && firstError == FirstOf(Errors(h))
    }

    constructor (items: seq<Result<V, E>>, limit: Option<nat>, f: (nat, V) -> Result<(), E>)
      ensures w == Scenario(items, f, limit)
      ensures h == Start && Valid()
      ensures stream == Some(items) && futures == {} && firstError == None && calls == [] && asked == 0
      ensures !IsTerminated()
    {
      this.w := Scenario(items, f, limit);
      this.f := f;
      this.limit := NonZero(limit);
      stream := Some(items);
      futures, firstError, calls, asked, h := {}, None, [], 0, Start;
      new;
      assert InFlight<V, E>(Start) == {};
    }

    predicate IsTerminated()
      reads this
    {
      stream.None? && futures == {}
    }

    /** The state between the two halves of an iteration, `s` being what was seen of the stream. */
    ghost predicate Pulled(s: StreamSaw<V, E>)
      reads this
    {
      && Run(w, h)
      && f == w.f
      && limit == NonZero(w.limit)
      && |Items(h)| + |ItemOf(s)| <= |w.items|
      && stream == (if Over(h) || s.Ended? then None else Some(w.items[|Items(h)| + |ItemOf(s)|..]))
      && calls == Started(h, s)
      && asked == Asked(h) + (if s.NotPolled? then 0 else 1)
      && futures == Flying(h, s)
      && firstError == (if Errors(h) == [] && s.Yielded? && s.item.Err? then Some(s.item.error) else FirstOf(Errors(h)))
    }

    /** Poll the stream, which is still there. */
    method TryPollNext(ready: bool) returns (answer: Poll<Option<Result<V, E>>>)
      requires stream.Some?
      modifies this`stream, this`asked
      ensures asked == old(asked) + 1
      ensures var rest := old(stream).value;
              && answer == (if !ready then Pending else if rest == [] then Ready(None) else Ready(Some(rest[0])))
              && stream == if ready && rest != [] then Some(rest[1..]) else old(stream)
    {
      asked := asked + 1;
      if !ready {
        return Pending;
      }
      if stream.value == [] {
        return Ready(None);
      }
      answer := Ready(Some(stream.value[0]));
      stream := Some(stream.value[1..]);
    }

    /** The first half of an iteration: pull an element, unless too many futures are in flight. */
    method Pull(ready: bool) returns (madeProgress: bool)
      requires Valid()
      modifies this
      ensures h == old(h)
      ensures var s := SeeStream(w, h, ready); Pulled(s) && madeProgress == (s.Yielded? && s.item.Ok?)
      ensures var mayAsk := old(stream).Some? &&
                            (w.limit.None? || w.limit.value == 0 || |old(futures)| < w.limit.value);
              && asked == old(asked) + (if mayAsk then 1 else 0)
              && if !mayAsk || !ready then
                   stream == old(stream) && calls == old(calls) && futures == old(futures) && firstError == old(firstError)
                   && !madeProgress
                 else
                   var rest := old(stream).value;
                   if rest == [] then
                     stream == None && calls == old(calls) && futures == old(futures) && firstError == old(firstError)
                     && !madeProgress
                   else
                     && stream == Some(rest[1..])
                     && match rest[0]
                        case Ok(v) =>
                          calls == old(calls) + [v] && futures == old(futures) + {|old(calls)|}
                          && firstError == old(firstError) && madeProgress
                        case Err(e) =>
                          calls == old(calls) && futures == old(futures)
                          && firstError == (if old(firstError).None? then Some(e) else old(firstError)) && !madeProgress
    {
      hide Run, Items, Asked, Completed, Errors, Over, Oks, Open, Taken, InFlight, Flying, Started;
      PullFacts(w, h, ready);
      madeProgress := false;
      if limit.None? || limit.value > |futures| {
        var streamCompleted := false;
        var elem: Option<V> := None;
        if stream.Some? {
          var answer := TryPollNext(ready);
          match answer {
            case Ready(Some(Ok(v))) =>
              madeProgress := true;
              elem := Some(v);
            case Ready(Some(Err(e))) =>
              if firstError.None? {
                firstError := Some(e);
              }
            case Ready(None) =>
              streamCompleted := true;
            case Pending =>
          }
        }
        if streamCompleted {
          stream := None;
        }
        if elem.Some? {
          futures := futures + {|calls|};
          calls := calls + [elem.value];
        }
      }
    }

    /** The second half: collect one completed future, if there is one. */
    method Drain(finished: Option<nat>, ghost a: Answer) returns (p: Poll<Option<nat>>)
      requires Pulled(SeeStream(w, h, a.streamReady)) && a.finished == finished
      modifies this
      ensures Valid() && h == Next(w, old(h), a)
      ensures h.saw.stream == SeeStream(w, old(h), a.streamReady)
      ensures h.saw.pool.PoolPending? <==> p.Pending?
      ensures h.saw.pool.PoolEmpty? <==> p == Ready(None)
      ensures stream == old(stream) && calls == old(calls) && asked == old(asked)
      ensures if old(futures) == {} then
                p == Ready(None) && futures == {} && firstError == old(firstError)
              else if finished.Some? && finished.value in old(futures) then
                var id := finished.value;
                && p == Ready(Some(id)) && futures == old(futures) - {id} && id < |calls|
                && var output := w.f(id, calls[id]);
                   firstError == if output.Err? && old(firstError).None? then Some(output.error) else old(firstError)
              else
                p == Pending && futures == old(futures) && firstError == old(firstError)
    {
      hide Run, Items, Asked, Completed, Errors, Over, Oks, Open, See;
      DrainFacts(w, h, a);
      match PollNext(futures, calls, f, finished) {
        case Ready(Some((id, output))) =>
          futures := futures - {id};
          if output.Err? && firstError.None? {
            firstError := Some(output.error);
          }
          p := Ready(Some(id));
        case Ready(None) =>
          p := Ready(None);
        case Pending =>
          p := Pending;
      }
      h := Next(w, h, a);
    }

    /** One poll. Every iteration but the last loops back; the last is the one that returns. The
        driver is not to be polled again once it has returned Ready. */
    method Poll() returns (p: Poll<Result<(), E>>)
      requires Valid()
      modifies this
      ensures p.Pending? ==> Valid()
      ensures Run(w, h) && h.Then? && LoopedSince(old(h), h.before)
      ensures p.Pending? ==> !(h.saw.stream.Yielded? && h.saw.stream.item.Ok?) && !h.saw.pool.Finished?
      ensures p.Pending? ==> !(h.saw.pool.PoolEmpty? && stream.None?)
      ensures p.Pending? && stream.Some? && !(h.saw.stream.Yielded? && h.saw.stream.item.Err?) ==>
                h.saw.stream.StreamPending? || (w.limit.Some? && 0 < w.limit.value == |futures|)
      ensures StatusOf(h) == match p { case Pending => Parked case Ready(r) => Done(r) }
      ensures IsTerminated() <==> p.Ready?
    {
      hide Run, Items, Asked, Completed, Errors, Over, Oks, Open, See, Left;
      while true
        invariant Valid()
        invariant LoopedSince(old(h), h)
        decreases Left(w, h)
      {
        var a: Answer := *;
        LoopingDecreases(w, h, a);
        TerminatedAgrees(w, Next(w, h, a));
        MayLeaveOff(w, h, a);
        var madeProgress := Pull(a.streamReady);
        var drained := Drain(a.finished, a);
        match drained {
          case Ready(Some(_)) =>
            madeProgress := true;
          case Ready(None) =>
            if stream.None? {
              p := Ready(Verdict(firstError));
              firstError := None;
              return;
            }
          case Pending =>
        }
        if !madeProgress {
          return Pending;
        }
      }
    }
  }
}
