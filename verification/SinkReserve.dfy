/** Reserving a slot in a sink before committing an item to it. */
module SinkReserve {
  import opened Outcomes

  type Answer<+E> = Poll<Result<(), E>>

  /** A call made on the sink, with the sink's answer. `owner` tells who made it. */
  datatype Call<+I, +E> =
    | PollReady(owner: Owner, answer: Answer<E>)
    | PollFlush(owner: Owner, answer: Answer<E>)
    | StartSend(owner: Owner, item: I, accepted: Result<(), E>)

  datatype Owner = User | ReserveFuture | FlushReserveFuture | PermitHolder | FlushFuture

  // ----- The protocol: who may call the sink next -----

  /** Who holds the exclusive borrow of the sink. */
  datatype Borrow =
    | Free
    | Reserving
    | FlushReserving(flushed: bool)
    | Permitted
    | Flushing

  datatype Step<+I, +E> =
    | Direct(call: Call<I, E>)                 // the user's own call, made on the sink itself
    | BeginReserve
    | BeginFlushReserve
    | BeginFlush
    | AskReady(answer: Answer<E>)              // by whichever future is there
    | AskFlush(answer: Answer<E>)
    | Feed(item: I, accepted: Result<(), E>)   // spends the permit
    | Drop                                     // of the future or the permit that holds the sink

  datatype World<+I, +E> = World(borrow: Borrow, log: seq<Call<I, E>>)

  predicate Enabled<I, E>(w: World<I, E>, s: Step<I, E>) {
    match s
    case Direct(call) => w.borrow.Free? && call.owner.User?
    case BeginReserve => w.borrow.Free?
    case BeginFlushReserve => w.borrow.Free?
    case BeginFlush => w.borrow.Free?
    case AskReady(_) => WaitsForReady(w.borrow)
    case AskFlush(_) => w.borrow == FlushReserving(false) || w.borrow.Flushing?
    case Feed(_, _) => w.borrow.Permitted?
    case Drop => !w.borrow.Free?
  }

  predicate WaitsForReady(b: Borrow) {
    b.Reserving? || b == FlushReserving(true)
  }

  predicate IsOk<E>(answer: Answer<E>) {
    answer.Ready? && answer.value.Ok?
  }

  function OwnerOf(b: Borrow): Owner {
    match b
    case Free => User
    case Reserving => ReserveFuture
    case FlushReserving(_) => FlushReserveFuture
    case Permitted => PermitHolder
    case Flushing => FlushFuture
  }

  /** A permit takes the sink over from the future that asked for it; Pending and errors leave the sink
      where it is. */
  function Apply<I, E>(w: World<I, E>, s: Step<I, E>): World<I, E> {
    if !Enabled(w, s) then w else
    match s
    case Direct(call) => w.(log := w.log + [call])
    case BeginReserve => w.(borrow := Reserving)
    case BeginFlushReserve => w.(borrow := FlushReserving(false))
    case BeginFlush => w.(borrow := Flushing)
    case AskReady(answer) =>
      World(if IsOk(answer) then Permitted else w.borrow, w.log + [PollReady(OwnerOf(w.borrow), answer)])
    case AskFlush(answer) =>
      World(if w.borrow.FlushReserving? then FlushReserving(IsOk(answer)) else if answer.Ready? then Free else Flushing,
            w.log + [PollFlush(OwnerOf(w.borrow), answer)])
    case Feed(item, accepted) => World(Free, w.log + [StartSend(PermitHolder, item, accepted)])
    case Drop => w.(borrow := Free)
  }

  datatype Run<+I, +E> = Begin | Then(before: Run<I, E>, step: Step<I, E>)

  predicate Legal<I, E>(r: Run<I, E>) {
    r.Then? ==> Legal(r.before) && Enabled(State(r.before), r.step)
  }

  function State<I, E>(r: Run<I, E>): World<I, E> {
    match r
    case Begin => World(Free, [])
    case Then(before, step) => Apply(State(before), step)
  }

  // ----- What the log looks like -----

  predicate JustReady<I, E>(log: seq<Call<I, E>>) {
    log != [] && log[|log| - 1].PollReady? && IsOk(log[|log| - 1].answer)
  }

  /** Since its successful flush, the flushing future has only asked whether the sink is ready. */
  predicate FlushedBefore<I, E>(log: seq<Call<I, E>>) {
    log != [] &&
    var last := log[|log| - 1];
    last.owner.FlushReserveFuture? &&
    if last.PollFlush? then IsOk(last.answer)
    else last.PollReady? && FlushedBefore(log[..|log| - 1])
  }

  /** A permit is spent on a sink whose very last call was a successful `poll_ready`; and the flushing
      future never asks for readiness without a successful flush behind it. */
  ghost predicate Orderly<I, E>(log: seq<Call<I, E>>) {
    && (forall k | 0 <= k < |log| && log[k].StartSend? && log[k].owner.PermitHolder? :: JustReady(log[..k]))
    && (forall k | 0 <= k < |log| && log[k].PollReady? && log[k].owner.FlushReserveFuture? :: FlushedBefore(log[..k]))
  }

  ghost predicate Sound<I, E>(w: World<I, E>) {
    && Orderly(w.log)
    && (w.borrow.Permitted? ==> JustReady(w.log))
    && (w.borrow == FlushReserving(true) ==> FlushedBefore(w.log))
  }

  lemma OrderlySnoc<I, E>(log: seq<Call<I, E>>, c: Call<I, E>)
    requires Orderly(log)
    requires c.StartSend? && c.owner.PermitHolder? ==> JustReady(log)
    requires c.PollReady? && c.owner.FlushReserveFuture? ==> FlushedBefore(log)
    ensures Orderly(log + [c])
    ensures JustReady(log + [c]) <==> c.PollReady? && IsOk(c.answer)
    ensures FlushedBefore(log + [c]) <==>
            c.owner.FlushReserveFuture? && if c.PollFlush? then IsOk(c.answer) else c.PollReady? && FlushedBefore(log)
  {
    var longer := log + [c];
    assert longer[..|log|] == log;
    forall k | 0 <= k < |longer| ensures longer[..k] == log[..k] {
      assert k <= |log|;
    }
    assert forall k | 0 <= k < |log| :: longer[k] == log[k];
  }

  /** In every run, with any answers from the sink, any futures and permits dropped at any point, and
      any calls of the user's own in between: each item sent through a permit directly follows the
      `poll_ready` that granted it, and each `poll_ready` of the flushing future follows its flush. */
  lemma {:induction false} EveryRunIsOrderly<I, E>(r: Run<I, E>)
    requires Legal(r)
    ensures Sound(State(r))
  {
    if r.Then? {
      EveryRunIsOrderly(r.before);
      SoundStep(State(r.before), r.step);
    }
  }

  lemma SoundStep<I, E>(w: World<I, E>, s: Step<I, E>)
    requires Sound(w) && Enabled(w, s)
    ensures Sound(Apply(w, s))
  {
    hide JustReady, FlushedBefore, Orderly;
    match s {
      case Direct(call) =>
        OrderlySnoc(w.log, call);
      case AskReady(answer) =>
        OrderlySnoc(w.log, PollReady(OwnerOf(w.borrow), answer));
      case AskFlush(answer) =>
        OrderlySnoc(w.log, PollFlush(OwnerOf(w.borrow), answer));
      case Feed(item, accepted) =>
        OrderlySnoc(w.log, StartSend(PermitHolder, item, accepted));
      case _ =>
    }
  }

  // ----- The futures and permits themselves -----

  /** A sink, with the run of all that has been done to it. The requirements on its methods are those of
      Rust's exclusive borrow: only who holds the sink can call it. */
  class Sink<I, E> {
    ghost var run: Run<I, E>

    ghost predicate Valid()
      reads this
    {
      Legal(run)
    }

    ghost function Log(): seq<Call<I, E>>
      reads this
    {
      State(run).log
    }

    ghost function Borrower(): Borrow
      reads this
    {
      State(run).borrow
    }

    constructor ()
      ensures Valid() && run == Begin && Log() == [] && Borrower() == Free
    {
      run := Begin;
    }

    /** The user's own call on a sink that nobody holds. */
    method CallDirectly(call: Call<I, E>)
      requires Valid() && Borrower().Free? && call.owner == User
      modifies this
      ensures Valid() && run == Then(old(run), Direct(call))
      ensures Log() == old(Log()) + [call] && Borrower() == Free
    {
      run := Then(run, Direct(call));
    }

    method Ask(answer: Answer<E>)
      requires Valid() && WaitsForReady(Borrower())
      modifies this
      ensures Valid() && run == Then(old(run), AskReady(answer))
      ensures Log() == old(Log()) + [PollReady(if old(Borrower()).Reserving? then ReserveFuture else FlushReserveFuture,
                                               answer)]
      ensures Borrower() == if answer.Ready? && answer.value.Ok? then Permitted else old(Borrower())
    {
      run := Then(run, AskReady(answer));
    }

    method AskToFlush(answer: Answer<E>)
      requires Valid() && (Borrower() == FlushReserving(false) || Borrower().Flushing?)
      modifies this
      ensures Valid() && run == Then(old(run), AskFlush(answer))
      ensures Log() == old(Log()) + [PollFlush(if old(Borrower()).Flushing? then FlushFuture else FlushReserveFuture,
                                               answer)]
      ensures Borrower() == if old(Borrower()).Flushing? then (if answer.Ready? then Free else Flushing)
                            else FlushReserving(answer.Ready? && answer.value.Ok?)
    {
      run := Then(run, AskFlush(answer));
    }

    method Start(item: I, accepted: Result<(), E>)
      requires Valid() && Borrower().Permitted?
      modifies this
      ensures Valid() && run == Then(old(run), Feed(item, accepted))
      ensures Log() == old(Log()) + [StartSend(PermitHolder, item, accepted)] && Borrower() == Free
    {
      run := Then(run, Feed(item, accepted));
    }

    method StartFlush() returns (f: Flush<I, E>)
      requires Valid() && Borrower().Free?
      modifies this
      ensures Valid() && run == Then(old(run), BeginFlush) && f == Flush(this)
      ensures Log() == old(Log()) && Borrower() == Flushing
    {
      run := Then(run, BeginFlush);
      f := Flush(this);
    }

    /** Dropping what holds the sink. */
    method Release()
      requires Valid() && !Borrower().Free?
      modifies this
      ensures Valid() && run == Then(old(run), Drop)
      ensures Log() == old(Log()) && Borrower() == Free
    {
      run := Then(run, Drop);
    }

    method MakeReserve() returns (f: Reserve<I, E>)
      requires Valid() && Borrower().Free?
      modifies this
      ensures Valid() && run == Then(old(run), BeginReserve)
      ensures Log() == old(Log()) && Borrower() == Reserving
      ensures fresh(f) && f.sink == Some(this)
    {
      run := Then(run, BeginReserve);
      f := new Reserve(this);
    }

    method MakeFlushReserve() returns (f: FlushReserve<I, E>)
      requires Valid() && Borrower().Free?
      modifies this
      ensures Valid() && run == Then(old(run), BeginFlushReserve)
      ensures Log() == old(Log()) && Borrower() == FlushReserving(false)
      ensures fresh(f) && fresh(f.reserve) && f.Valid() && f.state.PollingFlush? && f.reserve.sink == Some(this)
    {
      run := Then(run, BeginFlushReserve);
      f := new FlushReserve(this);
    }
  }

  /** The right to send one item: using it or dropping it gives the sink back, so that it cannot be used
      again. */
  datatype Permit<!I, !E> = Permit(sink: Sink<I, E>) {
    method Feed(item: I, accepted: Result<(), E>) returns (r: Result<(), E>)
      requires sink.Valid() && sink.Borrower().Permitted?
      modifies sink
      ensures sink.Valid() && sink.run == Then(old(sink.run), Step.Feed(item, accepted))
      ensures sink.Log() == old(sink.Log()) + [StartSend(PermitHolder, item, accepted)] && sink.Borrower() == Free
      ensures r == accepted
    {
      sink.Start(item, accepted);
      r := accepted;
    }

    /** The item goes at once; what is left to await is a flush, on a sink that took the item. */
    method Send(item: I, accepted: Result<(), E>) returns (r: Result<Flush<I, E>, E>)
      requires sink.Valid() && sink.Borrower().Permitted?
      modifies sink
      ensures sink.Valid()
      ensures var fed := Then(old(sink.run), Step.Feed(item, accepted));
              sink.run == if accepted.Ok? then Then(fed, BeginFlush) else fed
      ensures sink.Log() == old(sink.Log()) + [StartSend(PermitHolder, item, accepted)]
      ensures sink.Borrower() == if accepted.Ok? then Flushing else Free
      ensures r == if accepted.Ok? then Ok(Flush(sink)) else Err(accepted.error)
    {
      sink.Start(item, accepted);
      match accepted {
        case Err(e) =>
          r := Err(e);
        case Ok(_) =>
          var flush := sink.StartFlush();
          r := Ok(flush);
      }
    }
  }

  /** The flush that is left to await. */
  datatype Flush<!I, !E> = Flush(sink: Sink<I, E>) {
    method Poll(answer: Answer<E>) returns (p: Answer<E>)
      requires sink.Valid() && sink.Borrower().Flushing?
      modifies sink
      ensures sink.Valid() && sink.run == Then(old(sink.run), AskFlush(answer))
      ensures sink.Log() == old(sink.Log()) + [PollFlush(FlushFuture, answer)]
      ensures sink.Borrower() == if answer.Ready? then Free else Flushing
      ensures p == answer
    {
      sink.AskToFlush(answer);
      p := answer;
    }
  }

  type Reservation<!I, !E> = Poll<Result<Permit<I, E>, E>>

  function Granted<I, E>(sink: Sink<I, E>, answer: Answer<E>): Reservation<I, E> {
    match answer
    case Pending => Pending
    case Ready(Err(e)) => Ready(Err(e))
    case Ready(Ok(_)) => Ready(Ok(Permit(sink)))
  }

  class Reserve<I, E> {
    var sink: Option<Sink<I, E>>   // gone with the permit

    constructor (sink: Sink<I, E>)
      ensures this.sink == Some(sink)
    {
      this.sink := Some(sink);
    }

    predicate IsTerminated()
      reads this
    {
      sink.None?
    }

    ghost function Held(): set<object>
      reads this
    {
      if sink.Some? then {sink.value} else {}
    }

    method Poll(ready: Answer<E>) returns (p: Reservation<I, E>)
      requires sink.Some? ==> sink.value.Valid() && WaitsForReady(sink.value.Borrower())
      modifies this, Held()
      ensures old(sink).None? ==> p == Pending && sink.None?
      ensures IsTerminated() <==> old(sink).None? || (ready.Ready? && ready.value.Ok?)
      ensures old(sink).Some? ==>
                var s := old(sink).value;
                && s.Valid() && s.run == Then(old(s.run), AskReady(ready))
                && p == Granted(s, ready)
                && match ready
                   case Pending => p == Pending && sink == old(sink) && s.Borrower() == old(s.Borrower())
                   case Ready(Err(e)) => p == Ready(Err(e)) && sink == old(sink) && s.Borrower() == old(s.Borrower())
                   case Ready(Ok(_)) => p == Ready(Ok(Permit(s))) && sink == None && s.Borrower() == Permitted
    {
      if sink.None? {
        return Pending;
      }
      var s := sink.value;
      s.Ask(ready);
      match ready {
        case Pending =>
          p := Pending;
        case Ready(Err(e)) =>
          p := Ready(Err(e));
        case Ready(Ok(_)) =>
          sink := None;
          p := Ready(Ok(Permit(s)));
      }
    }
  }

  datatype FlushReserveState = PollingFlush | PollingReady

  class FlushReserve<I, E> {
    const reserve: Reserve<I, E>
    var state: FlushReserveState

    /** While it is still flushing, the sink is there; and the protocol is where the state says. */
    ghost predicate Valid()
      reads this, reserve, reserve.Held()
    {
      && (state.PollingFlush? ==> reserve.sink.Some?)
      && (reserve.sink.Some? ==>
            && reserve.sink.value.Valid()
            && reserve.sink.value.Borrower() == FlushReserving(state.PollingReady?))
    }

    constructor (sink: Sink<I, E>)
      requires sink.Valid() && sink.Borrower() == FlushReserving(false)
      ensures Valid() && reserve.sink == Some(sink) && state == PollingFlush && fresh(reserve)
    {
      reserve := new Reserve(sink);
      state := PollingFlush;
    }

    predicate IsTerminated()
      reads this, reserve
    {
      reserve.IsTerminated()
    }

    /** One poll makes the calls that the protocol allows, and no others. */
    method Poll(flush: Answer<E>, ready: Answer<E>) returns (p: Reservation<I, E>)
      requires Valid()
      modifies this`state, reserve, reserve.Held()
      ensures Valid()
      ensures old(reserve.sink).None? ==> p == Pending && reserve.sink.None?
      ensures IsTerminated() <==> old(reserve.sink).None? || (p.Ready? && p.value.Ok?)
      ensures old(reserve.sink).Some? ==>
                var s := old(reserve.sink).value;
                var flushed := old(state).PollingReady?;
                && s.Valid() && s.run == PollSteps(old(s.run), flushed, flush, ready)
                && p == Granted(s, PollAnswer(flushed, flush, ready))
                && reserve.sink == (if p == Ready(Ok(Permit(s))) then None else old(reserve.sink))
                && (state.PollingReady? <==> flushed || IsOk(flush))
      ensures old(reserve.sink).Some? && old(state).PollingFlush? && (flush.Pending? || flush.value.Err?) ==>
                var s := old(reserve.sink).value;
                && state.PollingFlush? && reserve.sink == old(reserve.sink)
                && s.Log() == old(s.Log()) + [PollFlush(FlushReserveFuture, flush)]
                && match flush
                   case Pending => p == Pending
                   case Ready(r) => p.Ready? && p.value == Err(r.error)
      ensures old(reserve.sink).Some? && (old(state).PollingReady? || (flush.Ready? && flush.value.Ok?)) ==>
                var s := old(reserve.sink).value;
                var flushCalls := if old(state).PollingFlush? then [PollFlush(FlushReserveFuture, flush)] else [];
                && state.PollingReady?
                && s.Log() == old(s.Log()) + flushCalls + [PollReady(FlushReserveFuture, ready)]
                && match ready
                   case Pending => p == Pending && reserve.sink == Some(s)
                   case Ready(Err(e)) => p == Ready(Err(e)) && reserve.sink == Some(s)
                   case Ready(Ok(_)) => p == Ready(Ok(Permit(s))) && reserve.sink == None && s.Borrower() == Permitted
    {
      if state.PollingFlush? {
        var s := reserve.sink.value;
        s.AskToFlush(flush);
        match flush {
          case Pending =>
            return Pending;
          case Ready(Err(e)) =>
            return Ready(Err(e));
          case Ready(Ok(_)) =>
            state := PollingReady;
        }
      }
      p := reserve.Poll(ready);
    }
  }

  /** The steps that one poll of the flushing future takes. */
  function PollSteps<I, E>(r: Run<I, E>, flushed: bool, flush: Answer<E>, ready: Answer<E>): Run<I, E> {
    var asked := if flushed then r else Then(r, AskFlush(flush));
    if flushed || IsOk(flush) then Then(asked, AskReady(ready)) else asked
  }

  function PollAnswer<E>(flushed: bool, flush: Answer<E>, ready: Answer<E>): Answer<E> {
    if flushed || IsOk(flush) then ready else flush
  }

  // ----- Retrying -----

  /** The items handed to the sink. */
  function Items<I, E>(log: seq<Call<I, E>>): seq<I> {
    if log == [] then []
    else
      var c := log[|log| - 1];
      Items(log[..|log| - 1]) + if c.StartSend? then [c.item] else []
  }

  lemma ItemsSnoc<I, E>(log: seq<Call<I, E>>, c: Call<I, E>)
    ensures Items(log + [c]) == Items(log) + if c.StartSend? then [c.item] else []
  {
    assert (log + [c])[..|log|] == log;
  }

  /** From `log` to `log'`, nothing has been sent. */
  ghost predicate Quiet<I, E>(log: seq<Call<I, E>>, log': seq<Call<I, E>>) {
    log <= log' && Items(log') == Items(log)
  }

  lemma QuietStep<I, E>(log: seq<Call<I, E>>, r: Run<I, E>, s: Step<I, E>)
    requires Quiet(log, State(r).log) && !s.Feed? && !s.Direct?
    ensures Quiet(log, State(Then(r, s)).log)
  {
    var log', log'' := State(r).log, State(Then(r, s)).log;
    if log'' != log' {
      ItemsSnoc(log', log''[|log'|]);
    }
  }

  /** In `log`, the item was sent through a permit at position `k`, directly after the grant. */
  ghost predicate SentOnGrant<I, E>(log: seq<Call<I, E>>, k: nat, item: I) {
    k < |log| && log[k].StartSend? && log[k].owner.PermitHolder? && log[k].item == item && JustReady(log[..k])
  }

  /** One turn of a retry loop: which kind of reservation is made, what the sink answers to the polls
      made before the timeout drops it (to the flush, and to the question whether it is ready), whether
      the sink would then accept the item, and what it answers to a flush after that. */
  datatype Attempt<+E> = Attempt(
    flushing: bool,
    answers: seq<(Answer<E>, Answer<E>)>,
    accepted: Result<(), E>,
    flushes: seq<Answer<E>>)

  /** What a reservation comes to under these answers. */
  function Outcome<E>(flushed: bool, answers: seq<(Answer<E>, Answer<E>)>): Answer<E>
    decreases |answers|
  {
    if answers == [] then Pending
    else
      var (flush, ready) := answers[0];
      var answer := PollAnswer(flushed, flush, ready);
      if answer.Ready? then answer else Outcome(flushed || IsOk(flush), answers[1..])
  }

  function First<E>(answers: seq<Answer<E>>): Answer<E> {
    if answers == [] then Pending
    else if answers[0].Ready? then answers[0]
    else First(answers[1..])
  }

  /** The first answer that is not Pending decides. */
  lemma {:induction false} FirstMeaning<E>(answers: seq<Answer<E>>, k: nat)
    requires k <= |answers| && forall j | 0 <= j < k :: answers[j].Pending?
    requires k < |answers| ==> answers[k].Ready?
    ensures First(answers) == if k < |answers| then answers[k] else Pending
  {
    if 0 < k {
      FirstMeaning(answers[1..], k - 1);
    }
  }

  /** A plain reservation comes to its first answer to the question whether the sink is ready. */
  lemma {:induction false} ReserveMeaning<E>(answers: seq<(Answer<E>, Answer<E>)>, k: nat)
    requires k <= |answers| && forall j | 0 <= j < k :: answers[j].1.Pending?
    requires k < |answers| ==> answers[k].1.Ready?
    ensures Outcome(true, answers) == if k < |answers| then answers[k].1 else Pending
  {
    if 0 < k {
      ReserveMeaning(answers[1..], k - 1);
    }
  }

  /** One that flushes first comes to the error of its flush, if that fails; otherwise it goes on, in the
      same poll, as a plain one. */
  lemma {:induction false} FlushReserveMeaning<E>(answers: seq<(Answer<E>, Answer<E>)>, k: nat)
    requires k <= |answers| && forall j | 0 <= j < k :: answers[j].0.Pending?
    requires k < |answers| ==> answers[k].0.Ready?
    ensures Outcome(false, answers) ==
            if k == |answers| then Pending
            else if answers[k].0.value.Err? then answers[k].0
            else Outcome(true, answers[k..])
  {
    if 0 < k {
      FlushReserveMeaning(answers[1..], k - 1);
      if k < |answers| {
        assert answers[1..][k - 1..] == answers[k..];
      }
    } else {
      assert answers[0..] == answers;
    }
  }

  predicate TimesOut<E>(a: Attempt<E>) {
    Outcome(!a.flushing, a.answers).Pending?
  }

  predicate AllTimeOut<E>(attempts: seq<Attempt<E>>) {
    forall k | 0 <= k < |attempts| :: TimesOut(attempts[k])
  }

  /** A plain reservation, polled until it is ready or its time is up. */
  method AwaitReserve<I, E>(sink: Sink<I, E>, answers: seq<(Answer<E>, Answer<E>)>) returns (p: Reservation<I, E>)
    requires sink.Valid() && sink.Borrower().Free?
    modifies sink
    ensures sink.Valid() && Quiet(old(sink.Log()), sink.Log())
    ensures p == Granted(sink, Outcome(true, answers))
    ensures sink.Borrower() == if p == Ready(Ok(Permit(sink))) then Permitted else Free
  {
    hide Items;
    QuietStep(sink.Log(), sink.run, BeginReserve);
    var reserve := sink.MakeReserve();
    p := Pending;
    for k := 0 to |answers|
      invariant fresh(reserve) && reserve.sink == Some(sink)
      invariant sink.Valid() && sink.Borrower() == Reserving && Quiet(old(sink.Log()), sink.Log())
      invariant p.Pending? && Outcome(true, answers) == Outcome(true, answers[k..])
    {
      QuietStep(old(sink.Log()), sink.run, AskReady(answers[k].1));
      assert answers[k..][1..] == answers[k + 1..];
      p := reserve.Poll(answers[k].1);
      if p.Ready? {
        if p.value.Err? {
          sink.Release();
        }
        return;
      }
    }
    sink.Release();
  }

  /** The same for a reservation that flushes first. */
  method AwaitFlushReserve<I, E>(sink: Sink<I, E>, answers: seq<(Answer<E>, Answer<E>)>)
    returns (p: Reservation<I, E>)
    requires sink.Valid() && sink.Borrower().Free?
    modifies sink
    ensures sink.Valid() && Quiet(old(sink.Log()), sink.Log())
    ensures p == Granted(sink, Outcome(false, answers))
    ensures sink.Borrower() == if p == Ready(Ok(Permit(sink))) then Permitted else Free
  {
    hide Items;
    QuietStep(sink.Log(), sink.run, BeginFlushReserve);
    var reserve := sink.MakeFlushReserve();
    p := Pending;
    for k := 0 to |answers|
      invariant fresh(reserve) && fresh(reserve.reserve) && reserve.reserve.sink == Some(sink)
      invariant reserve.Valid() && Quiet(old(sink.Log()), sink.Log())
      invariant p.Pending? && Outcome(false, answers) == Outcome(reserve.state.PollingReady?, answers[k..])
    {
      QuietPoll(old(sink.Log()), sink.run, reserve.state.PollingReady?, answers[k].0, answers[k].1);
      assert answers[k..][1..] == answers[k + 1..];
      p := reserve.Poll(answers[k].0, answers[k].1);
      if p.Ready? {
        if p.value.Err? {
          sink.Release();
        }
        return;
      }
    }
    sink.Release();
  }

  lemma QuietPoll<I, E>(log: seq<Call<I, E>>, r: Run<I, E>, flushed: bool, flush: Answer<E>, ready: Answer<E>)
    requires Quiet(log, State(r).log)
    ensures Quiet(log, State(PollSteps(r, flushed, flush, ready)).log)
  {
    hide Quiet;
    var asked := if flushed then r else Then(r, AskFlush(flush));
    QuietStep(log, r, AskFlush(flush));
    QuietStep(log, asked, AskReady(ready));
  }

  /** Flush until the sink answers, or the loop is given up. */
  method AwaitFlush<I, E>(flush: Flush<I, E>, answers: seq<Answer<E>>) returns (p: Answer<E>)
    requires flush.sink.Valid() && flush.sink.Borrower().Flushing?
    modifies flush.sink
    ensures flush.sink.Valid() && flush.sink.Borrower().Free?
    ensures Quiet(old(flush.sink.Log()), flush.sink.Log())
    ensures p == First(answers)
  {
    hide Items;
    p := Pending;
    for k := 0 to |answers|
      invariant flush.sink.Valid() && flush.sink.Borrower().Flushing?
      invariant Quiet(old(flush.sink.Log()), flush.sink.Log())
      invariant p.Pending? && First(answers) == First(answers[k..])
    {
      QuietStep(old(flush.sink.Log()), flush.sink.run, AskFlush(answers[k]));
      assert answers[k..][1..] == answers[k + 1..];
      p := flush.Poll(answers[k]);
      if p.Ready? {
        return;
      }
    }
    flush.sink.Release();
  }

  /** Spend the permit: feed the item, or send it and await the flush. */
  method Spend<I, E>(permit: Permit<I, E>, item: I, doFlush: bool, a: Attempt<E>) returns (result: Answer<E>)
    requires permit.sink.Valid() && permit.sink.Borrower().Permitted?
    modifies permit.sink
    ensures permit.sink.Valid() && permit.sink.Borrower().Free?
    ensures SentOnGrant(permit.sink.Log(), |old(permit.sink.Log())|, item)
    ensures old(permit.sink.Log()) <= permit.sink.Log()
    ensures Items(permit.sink.Log()) == Items(old(permit.sink.Log())) + [item]
    ensures a.accepted.Err? || !doFlush ==> result == Ready(a.accepted)
    ensures a.accepted.Ok? && doFlush ==> result == First(a.flushes)
  {
    hide Items;
    var sink := permit.sink;
    EveryRunIsOrderly(sink.run);
    ItemsSnoc(sink.Log(), StartSend(PermitHolder, item, a.accepted));
    if !doFlush {
      var fed := permit.Feed(item, a.accepted);
      result := Ready(fed);
      return;
    }
    var sent := permit.Send(item, a.accepted);
    match sent {
      case Err(e) =>
        result := Ready(Err(e));
      case Ok(flush) =>
        result := AwaitFlush(flush, a.flushes);
    }
  }

  /** The retry loop that reservations are made for, with either kind of reservation and either way to
      spend the permit. However many attempts time out, the item is handed to the sink at most once,
      directly after a grant, and is still at hand if it has not been. A result of Pending means that the
      loop has been given up: before the item was sent, or during the flush after it. */
  method FeedWithRetry<I, E>(sink: Sink<I, E>, item: I, doFlush: bool, attempts: seq<Attempt<E>>)
    returns (left: Option<I>, result: Answer<E>)
    requires sink.Valid() && sink.Borrower().Free?
    modifies sink
    ensures sink.Valid() && sink.Borrower().Free?
    ensures Items(sink.Log()) == Items(old(sink.Log())) + if left.None? then [item] else []
    ensures left.None? ==> exists k :: |old(sink.Log())| <= k && SentOnGrant(sink.Log(), k, item)
    ensures left.Some? ==> left == Some(item)
    ensures AllTimeOut(attempts) ==> left.Some? && result == Pending
    ensures forall k | 0 <= k < |attempts| && AllTimeOut(attempts[..k]) && !TimesOut(attempts[k]) ::
              match Outcome(!attempts[k].flushing, attempts[k].answers)
              case Pending => false
              case Ready(Err(e)) => left.Some? && result == Ready(Err(e))
              case Ready(Ok(_)) =>
                && left.None?
                && result == if attempts[k].accepted.Ok? && doFlush then First(attempts[k].flushes)
                             else Ready(attempts[k].accepted)
  {
    hide Items, Outcome, SentOnGrant;
    left, result := Some(item), Pending;
    for k := 0 to |attempts|
      invariant left == Some(item) && result == Pending
      invariant sink.Valid() && sink.Borrower().Free? && Quiet(old(sink.Log()), sink.Log())
      invariant AllTimeOut(attempts[..k])
    {
      var reservation: Reservation<I, E>;
      if attempts[k].flushing {
        reservation := AwaitFlushReserve(sink, attempts[k].answers);
      } else {
        reservation := AwaitReserve(sink, attempts[k].answers);
      }
      assert attempts[..k + 1] == attempts[..k] + [attempts[k]];
      match reservation {
        case Ready(Ok(permit)) =>
          left := None;
          result := Spend(permit, item, doFlush, attempts[k]);
          return;
        case Ready(Err(e)) =>
          result := Ready(Err(e));
          return;
        case Pending =>
      }
    }
    assert attempts[..|attempts|] == attempts;
  }
}
