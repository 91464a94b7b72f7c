/** Fan-in cooperative cancellation: many cancelers, one receiver, and for every successful
    cancellation a waiter that resolves when the receiver is gone. The signal is the drop of a
    one-shot sender, so everything depends on who owns each sender. */
module CoopCancel {
  import opened Outcomes

  datatype Payload<T> = Payload(message: T, sender: nat)

  /** The two ends of the channel and everything in flight between them. One-shot channels are named
      by the number of the `cancel` that made them. */
  datatype World<T> = World(
    cancelers: set<nat>,        // live `Canceler` handles
    queue: seq<Payload<T>>,     // sent and not received
    alive: bool,                // the `Receiver` has not been dropped
    receiving: bool,            // a `recv` future is suspended in the channel
    firstSender: Option<nat>,   // kept by the receiver
    senders: set<nat>,          // one-shot senders that have not been dropped
    waiters: set<nat>,          // live `Waiter`s
    issued: nat)                // one-shot channels made

  datatype Step<T> =
    | Clone(canceler: nat, copy: nat)
    | DropCanceler(canceler: nat)
    | Cancel(canceler: nat, message: T)
    | PollRecv                  // of the `recv` future at hand, or of a new one
    | AbandonRecv
    | DropReceiver
    | PollWaiter(waiter: nat)
    | DropWaiter(waiter: nat)

  datatype Reply<T> =
    | Nothing
    | Cancelled(result: Result<nat, T>)
    | Received(message: Poll<Option<T>>)
    | Waited(gone: Poll<()>)

  /** The receiver is borrowed by a suspended `recv`, and cannot be dropped meanwhile. */
  predicate Enabled<T>(w: World<T>, s: Step<T>) {
    match s
    case Clone(c, copy) => c in w.cancelers && copy !in w.cancelers
    case DropCanceler(c) => c in w.cancelers
    case Cancel(c, _) => c in w.cancelers
    case PollRecv => w.alive
    case AbandonRecv => w.alive && w.receiving
    case DropReceiver => w.alive && !w.receiving
    case PollWaiter(id) => id in w.waiters
    case DropWaiter(id) => id in w.waiters
  }

  function Senders<T>(queue: seq<Payload<T>>): set<nat> {
    set i | 0 <= i < |queue| :: queue[i].sender
  }

  function Kept(first: Option<nat>): set<nat> {
    if first.Some? then {first.value} else {}
  }

  function Apply<T>(w: World<T>, s: Step<T>): World<T> {
    if !Enabled(w, s) then w else
    match s
    case Clone(_, copy) => w.(cancelers := w.cancelers + {copy})
    case DropCanceler(c) => w.(cancelers := w.cancelers - {c})
    case Cancel(_, message) =>
      if w.alive then
        w.(queue := w.queue + [Payload(message, w.issued)], senders := w.senders + {w.issued},
           waiters := w.waiters + {w.issued}, issued := w.issued + 1)
      else w.(issued := w.issued + 1)
    case PollRecv =>
      if !w.receiving && w.firstSender.Some? then w
      else if w.queue != [] then
        // storing a sender drops the one stored before
        w.(queue := w.queue[1..], receiving := false, firstSender := Some(w.queue[0].sender),
           senders := w.senders - Kept(w.firstSender))
      else w.(receiving := w.cancelers != {})
    case AbandonRecv => w.(receiving := false)
    case DropReceiver =>
      w.(alive := false, queue := [], firstSender := None,
         senders := w.senders - Senders(w.queue) - Kept(w.firstSender))
    case PollWaiter(_) => w
    case DropWaiter(id) => w.(waiters := w.waiters - {id})
  }

  function ReplyTo<T>(w: World<T>, s: Step<T>): Reply<T> {
    if !Enabled(w, s) then Nothing else
    match s
    case Cancel(_, message) => Cancelled(if w.alive then Ok(w.issued) else Err(message))
    case PollRecv =>
      Received(
        if !w.receiving && w.firstSender.Some? then Ready(None)
        else if w.queue != [] then Ready(Some(w.queue[0].message))
        else if w.cancelers == {} then Ready(None)
        else Pending)
    case PollWaiter(id) => Waited(if id in w.senders then Pending else Ready(()))
    case _ => Nothing
  }

  /** A run from a fresh pair, with one canceler named 0. */
  datatype Run<T> = NewPair | Then(before: Run<T>, step: Step<T>)

  function State<T>(r: Run<T>): World<T> {
    match r
    case NewPair => World({0}, [], true, false, None, {}, {}, 0)
    case Then(before, step) => Apply(State(before), step)
  }

  predicate Legal<T>(r: Run<T>) {
    r.Then? ==> Legal(r.before) && Enabled(State(r.before), r.step)
  }

  /** The messages of all successful cancellations, in order. */
  function Sent<T>(r: Run<T>): seq<T> {
    match r
    case NewPair => []
    case Then(before, step) => Sent(before) + SentBy(State(before), step)
  }

  function SentBy<T>(w: World<T>, s: Step<T>): seq<T> {
    var reply := ReplyTo(w, s);
    if reply.Cancelled? && reply.result.Ok? then [s.message] else []
  }

  /** The messages that `recv` has returned, in order. */
  function Got<T>(r: Run<T>): seq<T> {
    match r
    case NewPair => []
    case Then(before, step) => Got(before) + GotBy(State(before), step)
  }

  function GotBy<T>(w: World<T>, s: Step<T>): seq<T> {
    match ReplyTo(w, s)
    case Received(Ready(Some(message))) => [message]
    case _ => []
  }

  function Messages<T>(queue: seq<Payload<T>>): seq<T> {
    seq(|queue|, i requires 0 <= i < |queue| => queue[i].message)
  }

  // ----- Who owns the senders -----

  /** While the receiver lives, every sender ever handed over is in exactly one place, the queue or
      `firstSender`, and exists; once it is gone, none is left anywhere. */
  ghost predicate Owned<T>(w: World<T>) {
    if w.alive then
      && w.senders == Senders(w.queue) + Kept(w.firstSender)
      && Senders(w.queue) !! Kept(w.firstSender)
      && (forall i, j | 0 <= i < j < |w.queue| :: w.queue[i].sender != w.queue[j].sender)
      && (forall id: nat :: id in w.senders <==> id < w.issued)
      && w.waiters <= w.senders
      && (w.receiving ==> w.firstSender.None?)
    else
      w.senders == {} && w.queue == [] && w.firstSender.None?
  }

  lemma {:induction false} Ownership<T>(r: Run<T>)
    requires Legal(r)
    ensures Owned(State(r))
  {
    if r.Then? {
      Ownership(r.before);
      OwnedStep(State(r.before), r.step);
    }
  }

  lemma OwnedStep<T>(w: World<T>, s: Step<T>)
    requires Owned(w) && Enabled(w, s)
    ensures Owned(Apply(w, s))
  {
    if s.Cancel? && w.alive {
      var p := Payload(s.message, w.issued);
      SendersSnoc(w.queue, p);
    } else if s.PollRecv? && w.queue != [] {
      SendersCons(w.queue);
    }
  }

  lemma SendersSnoc<T>(queue: seq<Payload<T>>, p: Payload<T>)
    ensures Senders(queue + [p]) == Senders(queue) + {p.sender}
  {
    var longer := queue + [p];
    assert longer[|queue|] == p;
    forall i | 0 <= i < |queue| ensures queue[i].sender in Senders(longer) {
      assert longer[i] == queue[i];
    }
  }

  lemma SendersCons<T>(queue: seq<Payload<T>>)
    requires queue != []
    ensures Senders(queue) == {queue[0].sender} + Senders(queue[1..])
  {
    var rest := queue[1..];
    forall i | 0 <= i < |queue| ensures queue[i].sender in {queue[0].sender} + Senders(rest) {
      if i > 0 {
        assert rest[i - 1] == queue[i];
      }
    }
  }

  /** No step but dropping the receiver destroys a sender that a waiter waits on. */
  lemma {:induction false} SendersSurvive<T>(r: Run<T>, s: Step<T>)
    requires Legal(r) && Enabled(State(r), s) && !s.DropReceiver?
    ensures State(r).senders <= Apply(State(r), s).senders
  {
    Ownership(r);
  }

  /** A waiter resolves if and only if the receiver has been dropped, whether its own message was
      received, is still queued, or never will be. */
  lemma {:induction false} WaiterResolvesIffDropped<T>(r: Run<T>, id: nat)
    requires Legal(r) && id in State(r).waiters
    ensures ReplyTo(State(r), PollWaiter(id)) == Waited(if State(r).alive then Pending else Ready(()))
  {
    Ownership(r);
  }

  // ----- What is received -----

  /** While the receiver lives nothing that was sent is lost: it has been received or is queued, in
      order, and at most one message is ever received. */
  ghost predicate Delivered<T>(w: World<T>, sent: seq<T>, got: seq<T>) {
    && (w.alive ==> sent == got + Messages(w.queue) && |got| == if w.firstSender.Some? then 1 else 0)
    && |got| <= 1 && got <= sent
  }

  lemma {:induction false} Delivery<T>(r: Run<T>)
    requires Legal(r)
    ensures Delivered(State(r), Sent(r), Got(r))
  {
    if r.Then? {
      Delivery(r.before);
      Ownership(r.before);
      DeliveredStep(State(r.before), Sent(r.before), Got(r.before), r.step);
    }
  }

  lemma DeliveredStep<T>(w: World<T>, sent: seq<T>, got: seq<T>, s: Step<T>)
    requires Enabled(w, s) && Delivered(w, sent, got) && Owned(w)
    ensures Delivered(Apply(w, s), sent + SentBy(w, s), got + GotBy(w, s))
  {
    hide Messages, Senders;
    if s.Cancel? && w.alive {
      MessagesSnoc(w.queue, Payload(s.message, w.issued));
    } else if s.PollRecv? && w.queue != [] && w.firstSender.None? {
      MessagesCons(w.queue);
    } else {
      assert SentBy(w, s) == [] && GotBy(w, s) == [];
      assert sent + [] == sent && got + [] == got;
    }
  }

  lemma MessagesSnoc<T>(queue: seq<Payload<T>>, p: Payload<T>)
    ensures Messages(queue + [p]) == Messages(queue) + [p.message]
  {}

  lemma MessagesCons<T>(queue: seq<Payload<T>>)
    requires queue != []
    ensures Messages(queue) == [queue[0].message] + Messages(queue[1..])
  {}

  /** At most one `recv` ever returns a message, and it is the first that was sent; `recv` futures that
      were abandoned while pending have taken nothing. */
  lemma {:induction false} OnlyTheFirst<T>(r: Run<T>)
    requires Legal(r)
    ensures |Got(r)| <= 1
    ensures Got(r) != [] ==> Sent(r) != [] && Got(r)[0] == Sent(r)[0]
  {
    Delivery(r);
  }

  /** Exactly what a poll of `recv` answers: the first message as soon as there is one; None once a
      message was received, or once there is no canceler left and nothing was sent; otherwise Pending.
      Dropping every canceler does not hide a message that was sent before. */
  lemma {:induction false} RecvAnswers<T>(r: Run<T>)
    requires Legal(r) && State(r).alive
    ensures ReplyTo(State(r), PollRecv) == Received(
              if Got(r) != [] then Ready(None)
              else if Sent(r) != [] then Ready(Some(Sent(r)[0]))
              else if State(r).cancelers == {} then Ready(None)
              else Pending)
  {
    Delivery(r);
    Ownership(r);
  }

  /** `cancel` fails if and only if the receiver has been dropped, and then hands its message back;
      otherwise its waiter is new, and pending. */
  lemma {:induction false} CancelFailsIffDropped<T>(r: Run<T>, canceler: nat, message: T)
    requires Legal(r) && canceler in State(r).cancelers
    ensures var reply := ReplyTo(State(r), Cancel(canceler, message));
            var after := Apply(State(r), Cancel(canceler, message));
            && reply.Cancelled?
            && (reply.result == Err(message) <==> !State(r).alive)
            && (reply.result.Ok? ==>
                  && reply.result.value !in State(r).waiters && reply.result.value in after.waiters
                  && ReplyTo(after, PollWaiter(reply.result.value)) == Waited(Pending))
            && (reply.result.Err? ==> after.waiters == State(r).waiters && after.queue == [])
  {
    Ownership(r);
  }

  // ----- Handles -----

  /** Cancelers made less cancelers dropped. */
  function HandleBalance<T>(r: Run<T>): int {
    match r
    case NewPair => 1
    case Then(before, step) => HandleBalance(before) + if step.Clone? then 1 else if step.DropCanceler? then -1 else 0
  }

  predicate ReceiverDropped<T>(r: Run<T>) {
    r.Then? && (r.step.DropReceiver? || ReceiverDropped(r.before))
  }

  /** The channel closes only when as many cancelers have been dropped as were ever made; and the
      receiver is alive until it is dropped itself. */
  lemma {:induction false} HandlesCounted<T>(r: Run<T>)
    requires Legal(r)
    ensures |State(r).cancelers| == HandleBalance(r)
    ensures State(r).cancelers == {} <==> HandleBalance(r) == 0
    ensures State(r).alive <==> !ReceiverDropped(r)
  {
    hide Apply, Enabled;
    if r.Then? {
      HandlesCounted(r.before);
      HandleStep(State(r.before), r.step);
    }
  }

  lemma HandleStep<T>(w: World<T>, s: Step<T>)
    requires Enabled(w, s)
    ensures |Apply(w, s).cancelers| == |w.cancelers| + if s.Clone? then 1 else if s.DropCanceler? then -1 else 0
    ensures Apply(w, s).alive <==> w.alive && !s.DropReceiver?
  {
    hide Senders, Kept;
  }

  // ----- The channel itself -----

  class Channel<T> {
    var cancelers: set<nat>
    var queue: seq<Payload<T>>
    var alive: bool
    var receiving: bool
    var firstSender: Option<nat>
    var senders: set<nat>
    var waiters: set<nat>
    var issued: nat
    ghost var run: Run<T>

    ghost function Snapshot(): World<T>
      reads this
    {
      World(cancelers, queue, alive, receiving, firstSender, senders, waiters, issued)
    }

    ghost predicate Valid()
      reads this
    {
      Legal(run) && State(run) == Snapshot()
    }

    constructor ()
      ensures Valid() && run == NewPair
      ensures Snapshot() == World({0}, [], true, false, None, {}, {}, 0)
    {
      cancelers, queue, alive, receiving := {0}, [], true, false;
      firstSender, senders, waiters, issued := None, {}, {}, 0;
      run := NewPair;
    }

    method Clone(canceler: nat, copy: nat)
      requires Valid() && canceler in cancelers && copy !in cancelers
      modifies this
      ensures Valid() && run == Then(old(run), Step.Clone(canceler, copy))
      ensures Snapshot() == old(Snapshot()).(cancelers := old(cancelers) + {copy})
    {
      cancelers := cancelers + {copy};
      run := Then(run, Step.Clone(canceler, copy));
    }

    method DropCanceler(canceler: nat)
      requires Valid() && canceler in cancelers
      modifies this
      ensures Valid() && run == Then(old(run), Step.DropCanceler(canceler))
      ensures Snapshot() == old(Snapshot()).(cancelers := old(cancelers) - {canceler})
    {
      cancelers := cancelers - {canceler};
      run := Then(run, Step.DropCanceler(canceler));
    }

    /** Never waits. The message comes back if there is nobody to receive it. */
    method Cancel(canceler: nat, message: T) returns (r: Result<nat, T>)
      requires Valid() && canceler in cancelers
      modifies this
      ensures Valid() && run == Then(old(run), Step.Cancel(canceler, message))
      ensures ReplyTo(old(Snapshot()), Step.Cancel(canceler, message)) == Cancelled(r)
      ensures r == if alive then Ok(old(issued)) else Err(message)
      ensures Snapshot() == if alive then
                old(Snapshot()).(queue := old(queue) + [Payload(message, old(issued))],
                                 senders := old(senders) + {old(issued)},
                                 waiters := old(waiters) + {old(issued)}, issued := old(issued) + 1)
              else old(Snapshot()).(issued := old(issued) + 1)
    {
      run := Then(run, Step.Cancel(canceler, message));
      var payload := Payload(message, issued);
      senders := senders + {issued};
      issued := issued + 1;
      if alive {
        queue := queue + [payload];
        waiters := waiters + {payload.sender};
        r := Ok(payload.sender);
      } else {
        OwnedAfter();
        senders := senders - {payload.sender};
        r := Err(payload.message);
      }
    }

    lemma OwnedAfter()
      requires Legal(run) && run.Then?
      ensures Owned(State(run.before))
    {
      Ownership(run.before);
    }

    /** One poll of a `recv` future: a new one, or the one that is suspended. */
    method PollRecv() returns (p: Poll<Option<T>>)
      requires Valid() && alive
      modifies this
      ensures Valid() && run == Then(old(run), Step.PollRecv)
      ensures ReplyTo(old(Snapshot()), Step.PollRecv) == Received(p)
      ensures p == if Got(old(run)) != [] then Ready(None)
                   else if Sent(old(run)) != [] then Ready(Some(Sent(old(run))[0]))
                   else if cancelers == {} then Ready(None)
                   else Pending
      ensures p.Pending? <==> old(queue) == [] && old(firstSender).None? && old(cancelers) != {}
      ensures p.Ready? && p.value.Some? <==> old(queue) != [] && old(firstSender).None?
      ensures match p
                case Ready(Some(message)) =>
                  && old(queue) != [] && message == old(queue)[0].message
                  && Snapshot() == old(Snapshot()).(queue := old(queue)[1..], receiving := false,
                                                    firstSender := Some(old(queue)[0].sender))
                case _ => Snapshot() == old(Snapshot()).(receiving := p.Pending?)
    {
      RecvAnswers(run);
      Ownership(run);
      run := Then(run, Step.PollRecv);
      if !receiving && firstSender.Some? {
        return Ready(None);
      }
      if queue != [] {
        var payload := queue[0];
        queue, receiving := queue[1..], false;
        senders := senders - Kept(firstSender);
        firstSender := Some(payload.sender);
        return Ready(Some(payload.message));
      }
      receiving := cancelers != {};
      p := if cancelers == {} then Ready(None) else Pending;
    }

    method AbandonRecv()
      requires Valid() && alive && receiving
      modifies this
      ensures Valid() && run == Then(old(run), Step.AbandonRecv)
      ensures Snapshot() == old(Snapshot()).(receiving := false)
    {
      receiving := false;
      run := Then(run, Step.AbandonRecv);
    }

    /** Dropping the receiver drops its queue and the sender it kept. */
    method DropReceiver()
      requires Valid() && alive && !receiving
      modifies this
      ensures Valid() && run == Then(old(run), Step.DropReceiver)
      ensures Snapshot() == old(Snapshot()).(alive := false, queue := [], firstSender := None, senders := {})
    {
      Ownership(run);
      var waiting, left := queue, senders;
      while waiting != []
        invariant left - Senders(waiting) == senders - Senders(queue)
        invariant Senders(waiting) <= Senders(queue)
        modifies {}
        decreases |waiting|
      {
        SendersCons(waiting);
        left := left - {waiting[0].sender};
        waiting := waiting[1..];
      }
      assert Senders(waiting) == {};
      senders := left - Kept(firstSender);
      assert senders == old(senders) - Senders(old(queue)) - Kept(old(firstSender));
      alive, queue, firstSender := false, [], None;
      run := Then(run, Step.DropReceiver);
    }

    method PollWaiter(waiter: nat) returns (p: Poll<()>)
      requires Valid() && waiter in waiters
      modifies this
      ensures Valid() && run == Then(old(run), Step.PollWaiter(waiter))
      ensures p == if alive then Pending else Ready(())
      ensures Snapshot() == old(Snapshot())
    {
      WaiterResolvesIffDropped(run, waiter);
      p := if waiter in senders then Pending else Ready(());
      run := Then(run, Step.PollWaiter(waiter));
    }

    /** Dropping a waiter does not affect the cancellation. */
    method DropWaiter(waiter: nat)
      requires Valid() && waiter in waiters
      modifies this
      ensures Valid() && run == Then(old(run), Step.DropWaiter(waiter))
      ensures Snapshot() == old(Snapshot()).(waiters := old(waiters) - {waiter})
    {
      waiters := waiters - {waiter};
      run := Then(run, Step.DropWaiter(waiter));
    }
  }
}
