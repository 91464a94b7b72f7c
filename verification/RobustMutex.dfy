/** The poisoning mutex: what the flag records, and what an `Ok` permit is worth.

    The run-level model is a machine of single steps, interleaved at will among any number of tasks.
    Between taking the lock and reading the flag, between two writes of an action, and between the
    drop of the poisoner and the drop of the guard, other tasks may step. */
module Robust {
  import opened Outcomes

  const NO_POISON: bv8 := 0
  const PANIC_POISON: bv8 := 1
  const CANCEL_POISON: bv8 := 2

  datatype PoisonError<+G> = PoisonError(guard: G, flags: bv8) {
    predicate IsPanic() {
      flags & PANIC_POISON != 0
    }

    predicate IsCancel() {
      flags & CANCEL_POISON != 0
    }
  }

  type LockResult<+G> = Result<G, PoisonError<G>>

  datatype TryLockError<+G> = Poisoned(error: PoisonError<G>) | WouldBlock

  /** Reading the flag: any bit at all is an error that carries the stored flags. */
  function Borrow(flags: bv8): LockResult<()> {
    if flags > NO_POISON then Err(PoisonError((), flags)) else Ok(())
  }

  function MapResult<T, U>(r: LockResult<T>, f: T -> U): LockResult<U> {
    match r
    case Ok(t) => Ok(f(t))
    case Err(e) => Err(PoisonError(f(e.guard), e.flags))
  }

  function FlagsOf(panicked: bool, cancelled: bool): bv8 {
    (if panicked then PANIC_POISON else 0) | (if cancelled then CANCEL_POISON else 0)
  }

  /** The bits that dropping a poisoner adds. */
  function NewFlags(guardPanicking: bool, panicking: bool, cancel: bool): bv8 {
    FlagsOf(!guardPanicking && panicking, cancel)
  }

  function Poison(flags: bv8, more: bv8): bv8 {
    flags | more
  }

  // ----- The machine -----

  /** Where a task stands. `ok` is whether its permit came as Ok; `panicking` whether the thread was
      already panicking when the poisoner was made; `before` is the data when the action began. */
  datatype Stage<T> =
    | Away
    | Holding
    | Permitted(ok: bool)
    | Acting(ok: bool, panicking: bool, before: T)
    | Deferred(ok: bool)
    | Awaiting(ok: bool, panicking: bool, before: T, terminated: bool)
    | Leaving

  datatype Mutex<T> = Mutex(data: T, flags: bv8, holder: Option<nat>, stages: map<nat, Stage<T>>) {
    function At(task: nat): Stage<T> {
      if task in stages then stages[task] else Away
    }

    function Put(task: nat, stage: Stage<T>): Mutex<T> {
      this.(stages := stages[task := stage])
    }

    function Unlock(task: nat): Mutex<T> {
      Put(task, Away).(holder := None)
    }
  }

  datatype Step<T> =
    | Acquire(task: nat)                        // the inner mutex grants the lock
    | ReadFlag(task: nat)                       // the permit is made, as Ok or as Err
    | DropPermit(task: nat)
    | BeginSync(task: nat, panicking: bool)
    | Write(task: nat, data: T)                 // an action changes the data, perhaps halfway
    | EndSync(task: nat, unwinding: bool)       // the poisoner of `perform` drops
    | MakeFuture(task: nat)                     // an async action is called, not polled
    | DropUnpolled(task: nat)
    | FirstPoll(task: nat, panicking: bool)
    | Complete(task: nat)                       // the awaited action is done: `terminated` is set
    | DropPoisoner(task: nat, panicking: bool)  // the poisoner of an async action drops
    | ReleaseGuard(task: nat)

  predicate Enabled<T>(m: Mutex<T>, s: Step<T>) {
    match s
    case Acquire(t) => m.At(t).Away? && m.holder.None?
    case ReadFlag(t) => m.At(t).Holding?
    case DropPermit(t) => m.At(t).Permitted?
    case BeginSync(t, _) => m.At(t).Permitted?
    case Write(t, _) => m.At(t).Acting? || (m.At(t).Awaiting? && !m.At(t).terminated)
    case EndSync(t, _) => m.At(t).Acting?
    case MakeFuture(t) => m.At(t).Permitted?
    case DropUnpolled(t) => m.At(t).Deferred?
    case FirstPoll(t, _) => m.At(t).Deferred?
    case Complete(t) => m.At(t).Awaiting? && !m.At(t).terminated
    case DropPoisoner(t, _) => m.At(t).Awaiting?
    case ReleaseGuard(t) => m.At(t).Leaving?
  }

  /** A step that is not enabled does not happen. */
  function Apply<T>(m: Mutex<T>, s: Step<T>): Mutex<T> {
    if !Enabled(m, s) then m else
    match s
    case Acquire(t) => m.Put(t, Holding).(holder := Some(t))
    case ReadFlag(t) => m.Put(t, Permitted(Borrow(m.flags).Ok?))
    case DropPermit(t) => m.Unlock(t)
    case BeginSync(t, panicking) => m.Put(t, Acting(m.At(t).ok, panicking, m.data))
    case Write(_, data) => m.(data := data)
    case EndSync(t, unwinding) =>
      var was := m.At(t).panicking;
      m.Put(t, Leaving).(flags := Poison(m.flags, NewFlags(was, was || unwinding, false)))
    case MakeFuture(t) => m.Put(t, Deferred(m.At(t).ok))
    case DropUnpolled(t) => m.Unlock(t)
    case FirstPoll(t, panicking) => m.Put(t, Awaiting(m.At(t).ok, panicking, m.data, false))
    case Complete(t) => m.Put(t, m.At(t).(terminated := true))
    case DropPoisoner(t, panicking) =>
      m.Put(t, Leaving).(flags := Poison(m.flags, NewFlags(m.At(t).panicking, panicking, !m.At(t).terminated)))
    case ReleaseGuard(t) => m.Unlock(t)
  }

  /** A run of the machine, from a fresh mutex. */
  datatype Run<T> = Fresh(data: T) | Then(before: Run<T>, step: Step<T>)

  predicate Legal<T>(r: Run<T>) {
    r.Then? ==> Legal(r.before) && Enabled(State(r.before), r.step)
  }

  function State<T>(r: Run<T>): Mutex<T> {
    match r
    case Fresh(data) => Mutex(data, NO_POISON, None, map[])
    case Then(before, step) => Apply(State(before), step)
  }

  function InitialData<T>(r: Run<T>): T {
    match r
    case Fresh(data) => data
    case Then(before, _) => InitialData(before)
  }

  ghost predicate Extends<T>(r: Run<T>, r': Run<T>) {
    r == r' || (r'.Then? && Extends(r, r'.before))
  }

  // ----- Mutual exclusion, and what an Ok permit says of the flag -----

  ghost predicate Exclusive<T>(m: Mutex<T>) {
    forall t: nat :: !m.At(t).Away? <==> m.holder == Some(t)
  }

  predicate CameAsOk<T>(stage: Stage<T>) {
    match stage
    case Permitted(ok) => ok
    case Acting(ok, _, _) => ok
    case Deferred(ok) => ok
    case Awaiting(ok, _, _, _) => ok
    case _ => false
  }

  ghost predicate OkIsClean<T>(m: Mutex<T>) {
    forall t: nat :: CameAsOk(m.At(t)) ==> m.flags == NO_POISON
  }

  /** At most one task is inside, in any interleaving; and from the moment a permit is handed out as
      Ok until its own action ends, the mutex is not poisoned. */
  lemma {:induction false} OkStaysClean<T>(r: Run<T>)
    requires Legal(r)
    ensures Exclusive(State(r)) && OkIsClean(State(r))
  {
    if r.Then? {
      OkStaysClean(r.before);
      ExclusiveStep(State(r.before), r.step);
      OkIsCleanStep(State(r.before), r.step);
    }
  }

  lemma ExclusiveStep<T>(m: Mutex<T>, s: Step<T>)
    requires Exclusive(m)
    ensures Exclusive(Apply(m, s))
  {
    hide Poison, FlagsOf, NewFlags, Borrow;
    var m' := Apply(m, s);
    forall t: nat ensures !m'.At(t).Away? <==> m'.holder == Some(t) {
      assert !m.At(t).Away? <==> m.holder == Some(t);
      assert !m.At(s.task).Away? <==> m.holder == Some(s.task);
    }
  }

  lemma OkIsCleanStep<T>(m: Mutex<T>, s: Step<T>)
    requires Exclusive(m) && OkIsClean(m) && Enabled(m, s)
    ensures OkIsClean(Apply(m, s))
  {
    hide Poison, FlagsOf, NewFlags;
    var m' := Apply(m, s);
    forall t: nat | CameAsOk(m'.At(t)) ensures m'.flags == NO_POISON {
      if t != s.task {
        assert CameAsOk(m.At(t));
        assert m.holder == Some(t) && m.At(s.task).Away?;
      } else {
        assert !s.EndSync? && !s.DropPoisoner?;
        assert CameAsOk(m.At(t)) || s.ReadFlag?;
      }
    }
  }

  // ----- Poison only grows -----

  lemma OrKeeps(f: bv8, x: bv8)
    ensures (f | x) & f == f
    ensures f != 0 ==> f | x != 0
  {}

  lemma OrZero(f: bv8, x: bv8)
    ensures f | x == 0 <==> f == 0 && x == 0
  {}

  lemma AndTrans(f: bv8, g: bv8, h: bv8)
    requires g & f == f && h & g == g
    ensures h & f == f
  {}

  lemma PoisonGrows<T>(m: Mutex<T>, s: Step<T>)
    requires Enabled(m, s)
    ensures Apply(m, s).flags & m.flags == m.flags
    ensures m.flags != NO_POISON ==> Apply(m, s).flags != NO_POISON
  {
    FlagStep(m, s);
    OrKeeps(m.flags, FlagsOf(Panics(m, s), Cancels(m, s)));
  }

  /** Every bit ever set stays set; once poisoned, every later reading of the flag is an error with
      exactly the stored flags, and the permit comes with it. */
  lemma {:induction false} PoisonPersists<T>(r: Run<T>, r': Run<T>)
    requires Legal(r) && Legal(r') && Extends(r, r')
    ensures State(r').flags & State(r).flags == State(r).flags
    ensures State(r).flags != NO_POISON ==>
              State(r').flags != NO_POISON
              && forall permit: nat ::
                   MapResult(Borrow(State(r').flags), (_: ()) => permit) == Err(PoisonError(permit, State(r').flags))
  {
    if r != r' {
      PoisonPersists(r, r'.before);
      PoisonGrows(State(r'.before), r'.step);
      AndTrans(State(r).flags, State(r'.before).flags, State(r').flags);
    }
  }

  // ----- Exact accounting -----

  /** An async action that had been polled lost its poisoner before it was complete. */
  predicate Cancels<T>(m: Mutex<T>, s: Step<T>) {
    Enabled(m, s) && s.DropPoisoner? && !m.At(s.task).terminated
  }

  /** A poisoner made on a thread that was not panicking was dropped while it was. */
  predicate Panics<T>(m: Mutex<T>, s: Step<T>) {
    && Enabled(m, s)
    && ((s.EndSync? && s.unwinding) || (s.DropPoisoner? && s.panicking))
    && !m.At(s.task).panicking
  }

  predicate EverCancelled<T>(r: Run<T>) {
    r.Then? && (EverCancelled(r.before) || Cancels(State(r.before), r.step))
  }

  predicate EverPanicked<T>(r: Run<T>) {
    r.Then? && (EverPanicked(r.before) || Panics(State(r.before), r.step))
  }

  /** The flag is exactly the record of what happened: the cancel bit if and only if some polled async
      action was dropped unfinished, the panic bit if and only if some poisoner met a new panic, and
      no other bit. Unused permits and futures never polled leave no trace. */
  lemma {:induction false} ExactPoison<T>(r: Run<T>)
    requires Legal(r)
    ensures State(r).flags == FlagsOf(EverPanicked(r), EverCancelled(r))
    ensures State(r).flags & CANCEL_POISON != 0 <==> EverCancelled(r)
    ensures State(r).flags & PANIC_POISON != 0 <==> EverPanicked(r)
    ensures State(r).flags == NO_POISON <==> !EverPanicked(r) && !EverCancelled(r)
  {
    if r.Then? {
      ExactPoison(r.before);
      var m, s := State(r.before), r.step;
      FlagStep(m, s);
      FlagsOfOr(EverPanicked(r.before), EverCancelled(r.before), Panics(m, s), Cancels(m, s));
    }
    FlagsOfBits(EverPanicked(r), EverCancelled(r));
  }

  lemma FlagStep<T>(m: Mutex<T>, s: Step<T>)
    requires Enabled(m, s)
    ensures Apply(m, s).flags == m.flags | FlagsOf(Panics(m, s), Cancels(m, s))
  {
    if !s.EndSync? && !s.DropPoisoner? {
      assert Apply(m, s).flags == m.flags;
      FlagsOfBits(false, false);
      OrZeroIs(m.flags);
    }
  }

  lemma OrZeroIs(f: bv8)
    ensures f | 0 == f
  {}

  lemma FlagsOfOr(p: bool, c: bool, p': bool, c': bool)
    ensures FlagsOf(p, c) | FlagsOf(p', c') == FlagsOf(p || p', c || c')
  {}

  lemma FlagsOfBits(p: bool, c: bool)
    ensures FlagsOf(p, c) & CANCEL_POISON != 0 <==> c
    ensures FlagsOf(p, c) & PANIC_POISON != 0 <==> p
    ensures FlagsOf(p, c) == NO_POISON <==> !p && !c
  {}

  /** The flag's arithmetic, bit by bit: what is added is set, what was set stays set, and nothing else
      changes. */
  lemma PoisonBits(flags: bv8, panicked: bool, cancelled: bool)
    ensures var after := Poison(flags, FlagsOf(panicked, cancelled));
            && (after & PANIC_POISON != 0 <==> flags & PANIC_POISON != 0 || panicked)
            && (after & CANCEL_POISON != 0 <==> flags & CANCEL_POISON != 0 || cancelled)
            && after & 0xfc == flags & 0xfc
    ensures Poison(flags, FlagsOf(false, false)) == flags
  {
    assert PANIC_POISON == 1 && CANCEL_POISON == 2;
  }

  lemma NewFlagsAre(guardPanicking: bool, panicking: bool, cancel: bool)
    ensures NewFlags(guardPanicking, panicking, cancel) == FlagsOf(!guardPanicking && panicking, cancel)
  {}

  lemma NothingAdded(flags: bv8)
    ensures Poison(flags, FlagsOf(false, false)) == flags
  {
    PoisonBits(flags, false, false);
  }

  // ----- The data -----

  /** What was written last. */
  function LastWritten<T>(r: Run<T>): T {
    match r
    case Fresh(data) => data
    case Then(before, step) => if step.Write? then step.data else LastWritten(before)
  }

  /** The data is what an action wrote last: no poisoner, no guard and no lock ever undoes it. */
  lemma {:induction false} DataIsLastWritten<T>(r: Run<T>)
    requires Legal(r)
    ensures State(r).data == LastWritten(r)
  {
    hide Poison, FlagsOf, NewFlags, Borrow;
    if r.Then? {
      DataIsLastWritten(r.before);
    }
  }

  /** No step of a task changes where another stands. */
  lemma OthersUntouched<T>(m: Mutex<T>, s: Step<T>, t: nat)
    requires t != s.task
    ensures Apply(m, s).At(t) == m.At(t)
  {
    hide Poison, FlagsOf, NewFlags, Borrow;
  }

  // ----- The user's invariant -----

  /** A completed action that found the invariant intact leaves it intact. Nothing is asked of
      actions that unwind or are dropped halfway. */
  predicate Restores<T>(inv: T -> bool, m: Mutex<T>, s: Step<T>) {
    Enabled(m, s) && ((s.EndSync? && !s.unwinding) || s.Complete?) ==> inv(m.At(s.task).before) ==> inv(m.data)
  }

  predicate WellBehaved<T>(inv: T -> bool, r: Run<T>) {
    match r
    case Fresh(data) => inv(data)
    case Then(before, step) => WellBehaved(inv, before) && Restores(inv, State(before), step)
  }

  /** A synchronous action started on a thread that was already panicking unwinds: the one way out of
      an action that the flag does not see. */
  predicate SilentUnwind<T>(m: Mutex<T>, s: Step<T>) {
    Enabled(m, s) && s.EndSync? && s.unwinding && m.At(s.task).panicking
  }

  predicate EverSilent<T>(r: Run<T>) {
    r.Then? && (EverSilent(r.before) || SilentUnwind(State(r.before), r.step))
  }

  /** The data that the invariant is claimed of: what is there now, or, while an action is under way,
      what it started from. */
  function Claimed<T>(m: Mutex<T>): T {
    match m.holder
    case None => m.data
    case Some(t) =>
      match m.At(t)
      case Acting(_, _, before) => before
      case Awaiting(_, _, before, terminated) => if terminated then m.data else before
      case _ => m.data
  }

  lemma {:induction false} CleanMeansIntact<T>(inv: T -> bool, r: Run<T>)
    requires Legal(r) && WellBehaved(inv, r) && !EverSilent(r)
    ensures State(r).flags == NO_POISON ==> inv(Claimed(State(r)))
  {
    if r.Then? {
      CleanMeansIntact(inv, r.before);
      OkStaysClean(r.before);
      IntactStep(inv, State(r.before), r.step);
    }
  }

  lemma IntactStep<T>(inv: T -> bool, m: Mutex<T>, s: Step<T>)
    requires Enabled(m, s) && Exclusive(m)
    requires m.flags == NO_POISON ==> inv(Claimed(m))
    requires Restores(inv, m, s) && !SilentUnwind(m, s)
    ensures Apply(m, s).flags == NO_POISON ==> inv(Claimed(Apply(m, s)))
  {
    FlagStep(m, s);
    OrKeeps(m.flags, FlagsOf(Panics(m, s), Cancels(m, s)));
    FlagsOfBits(Panics(m, s), Cancels(m, s));
    OrZero(m.flags, FlagsOf(Panics(m, s), Cancels(m, s)));
    assert !m.At(s.task).Away? <==> m.holder == Some(s.task);
  }

  /** What `task` is given when it reads the flag: its permit and the data behind it. */
  function Acquired<T>(m: Mutex<T>, task: nat): LockResult<(nat, T)> {
    MapResult(Borrow(m.flags), (_: ()) => (task, m.data))
  }

  /** What a task learns from acquiring the mutex: Ok means that nothing has ever gone wrong, and an
      error says exactly which of the two things have. The permit comes either way. */
  lemma {:induction false} AcquiredTells<T>(r: Run<T>, t: nat)
    requires Legal(r)
    ensures var acquired := Acquired(State(r), t);
            && (acquired.Ok? <==> !EverPanicked(r) && !EverCancelled(r))
            && (acquired.Ok? ==> acquired.value.0 == t)
            && (acquired.Err? ==>
                  && acquired.error.guard.0 == t
                  && (acquired.error.IsPanic() <==> EverPanicked(r))
                  && (acquired.error.IsCancel() <==> EverCancelled(r)))
  {
    ExactPoison(r);
  }

  /** The point of the mutex. In every interleaving of tasks, panics and cancellations, data handed
      out as Ok satisfies the invariant, and still does when an unused Ok permit starts its action;
      the same holds of the data taken out of the mutex at the end. */
  lemma {:induction false} OkSeesIntactData<T>(inv: T -> bool, r: Run<T>, t: nat)
    requires Legal(r) && WellBehaved(inv, r) && !EverSilent(r)
    ensures State(r).At(t).Holding? && Acquired(State(r), t).Ok? ==> inv(Acquired(State(r), t).value.1)
    ensures State(r).At(t) == Permitted(true) || State(r).At(t) == Deferred(true) ==> inv(State(r).data)
    ensures State(r).holder.None? && IntoInner(State(r)).Ok? ==> inv(IntoInner(State(r)).value)
  {
    OkStaysClean(r);
    CleanMeansIntact(inv, r);
  }

  /** Taking the mutex apart, which needs that nobody holds it. */
  function IntoInner<T>(m: Mutex<T>): LockResult<T> {
    MapResult(Borrow(m.flags), (_: ()) => m.data)
  }

  /** An acquisition is about to hand out broken data as Ok. */
  predicate Breach<T>(inv: T -> bool, r: Run<T>, t: nat) {
    State(r).At(t).Holding? && Acquired(State(r), t).Ok? && !inv(State(r).data)
  }

  ghost predicate Proper<T>(inv: T -> bool, good: T, r: Run<T>) {
    Legal(r) && InitialData(r) == good && WellBehaved(inv, r)
  }

  ghost predicate CanBreach<T(!new)>(inv: T -> bool, good: T, silentAllowed: bool) {
    exists r: Run<T>, t: nat ::
      Proper(inv, good, r) && (EverSilent(r) ==> silentAllowed) && Breach(inv, r, t)
  }

  /** The run that shows it: task 0 runs a synchronous action from a destructor of an unwinding
      thread, the action unwinds halfway, and task 1 is handed the broken data as Ok. */
  lemma SilentBreach<T>(inv: T -> bool, good: T, bad: T) returns (r: Run<T>)
    requires inv(good) && !inv(bad)
    ensures Proper(inv, good, r) && Breach(inv, r, 1)
  {
    var begun := SilentBegin(inv, good);
    assert State(begun) == Mutex(good, 0, Some(0), map[0 := Acting(true, true, good)]);
    var r1 := Then(begun, Write(0, bad));
    assert Proper(inv, good, r1) && State(r1) == Mutex(bad, 0, Some(0), map[0 := Acting(true, true, good)]);
    var r2 := Then(r1, EndSync(0, true));
    assert Proper(inv, good, r2) && State(r2) == Mutex(bad, 0, Some(0), map[0 := Leaving]);
    var r3 := Then(r2, ReleaseGuard(0));
    assert Proper(inv, good, r3) && State(r3) == Mutex(bad, 0, None, map[0 := Away]);
    r := Then(r3, Acquire(1));
  }

  lemma SilentBegin<T>(inv: T -> bool, good: T) returns (r: Run<T>)
    requires inv(good)
    ensures Proper(inv, good, r) && State(r) == Mutex(good, 0, Some(0), map[0 := Acting(true, true, good)])
  {
    hide Poison, FlagsOf, NewFlags;
    var r0 := Fresh(good);
    assert Proper(inv, good, r0) && State(r0) == Mutex(good, 0, None, map[]);
    var r1 := Then(r0, Acquire(0));
    assert Proper(inv, good, r1) && State(r1) == Mutex(good, 0, Some(0), map[0 := Holding]);
    var r2 := Then(r1, ReadFlag(0));
    assert Proper(inv, good, r2) && State(r2) == Mutex(good, 0, Some(0), map[0 := Permitted(true)]);
    r := Then(r2, BeginSync(0, true));
  }

  /** The guarantee needs its one assumption, and nothing else: broken data can be handed out as Ok if
      and only if synchronous actions are allowed to start on a panicking thread and unwind there. */
  lemma {:induction false} BreachIffSilentAllowed<T(!new)>(inv: T -> bool, good: T, bad: T, silentAllowed: bool)
    requires inv(good) && !inv(bad)
    ensures CanBreach(inv, good, silentAllowed) <==> silentAllowed
  {
    if CanBreach(inv, good, silentAllowed) {
      var r: Run<T>, t: nat :| Proper(inv, good, r)
                               && (EverSilent(r) ==> silentAllowed) && Breach(inv, r, t);
      if !EverSilent(r) {
        OkSeesIntactData(inv, r, t);
      }
    }
    if silentAllowed {
      var r := SilentBreach(inv, good, bad);
    }
  }

  // ----- The mutex itself -----

  class Flag {
    var failed: bv8

    constructor ()
      ensures failed == NO_POISON
    {
      failed := NO_POISON;
    }

    /** What dropping a poisoner does, given whether the thread was panicking when it was made. */
    method Done(guardPanicking: bool, panicking: bool, cancelPoison: bool)
      modifies this
      ensures failed == Poison(old(failed), FlagsOf(!guardPanicking && panicking, cancelPoison))
    {
      var newFlags: bv8 := 0;
      if !guardPanicking && panicking {
        newFlags := newFlags | PANIC_POISON;
      }
      if cancelPoison {
        newFlags := newFlags | CANCEL_POISON;
      }
      failed := failed | newFlags;
    }
  }

  /** How a synchronous action ends, with the data as it leaves it. */
  datatype Ending<T> = Returned(data: T) | Unwound(data: T)

  /** How one poll of an async action ends, with the data as it leaves it. */
  datatype Polled<T> = Suspended(data: T) | Completed(data: T) | Panicked(data: T)

  class RobustMutex<T> {
    const poison: Flag
    var data: T
    var holder: Option<nat>
    var stages: map<nat, Stage<T>>
    ghost var run: Run<T>

    ghost function Snapshot(): Mutex<T>
      reads this, poison
    {
      Mutex(data, poison.failed, holder, stages)
    }

    /** The object is where its run of single steps leads. */
    ghost predicate Valid()
      reads this, poison
    {
      Legal(run) && State(run) == Snapshot()
    }

    function At(task: nat): Stage<T>
      reads this
    {
      if task in stages then stages[task] else Away
    }

    lemma HolderInside(task: nat)
      requires Valid()
      ensures holder == Some(task) <==> !At(task).Away?
    {
      OkStaysClean(run);
      assert At(task) == State(run).At(task);
    }

    constructor (value: T)
      ensures Valid() && run == Fresh(value) && fresh(poison)
    {
      poison := new Flag();
      data, holder, stages := value, None, map[];
      run := Fresh(value);
    }

    /** Never waits: an error without a permit while the lock is held, otherwise the permit, as an
        error with the flags if the mutex is poisoned. */
    method TryLock(task: nat) returns (r: Result<nat, TryLockError<nat>>)
      requires Valid()
      modifies this
      ensures Valid()
      ensures r == Err(WouldBlock) <==> old(holder).Some?
      ensures r == Err(WouldBlock) ==> run == old(run) && Snapshot() == old(Snapshot())
      ensures r != Err(WouldBlock) ==>
                Snapshot() == Mutex(old(data), old(poison.failed), Some(task),
                                    old(stages)[task := Permitted(old(poison.failed) == 0)])
      ensures r != Err(WouldBlock) ==>
                run == Then(Then(old(run), Acquire(task)), ReadFlag(task))
                && (r == if poison.failed == NO_POISON then Ok(task)
                         else Err(Poisoned(PoisonError(task, poison.failed))))
    {
      OkStaysClean(run);
      if holder.Some? {
        return Err(WouldBlock);
      }
      assert At(task) == State(run).At(task);
      holder := Some(task);
      stages := stages[task := Holding];
      run := Then(run, Acquire(task));
      var permit := MapResult(Borrow(poison.failed), (_: ()) => task);
      stages := stages[task := Permitted(permit.Ok?)];
      run := Then(run, ReadFlag(task));
      match permit {
        case Ok(p) => r := Ok(p);
        case Err(e) => r := Err(Poisoned(e));
      }
    }

    /** Taking the mutex apart: the data comes out, as an error with the flags if there is poison. */
    method TakeApart() returns (r: LockResult<T>)
      requires Valid() && holder.None?
      ensures r == IntoInner(State(run))
      ensures r == if poison.failed == 0 then Ok(data) else Err(PoisonError(data, poison.failed))
    {
      var value := data;
      r := MapResult(Borrow(poison.failed), (_: ()) => value);
    }

    method DropPermit(task: nat)
      requires Valid() && At(task).Permitted?
      modifies this
      ensures Valid() && run == Then(old(run), Step.DropPermit(task))
      ensures Snapshot() == Mutex(old(data), old(poison.failed), None, old(stages)[task := Away])
    {
      assert At(task) == State(run).At(task);
      DropGuard(task, Step.DropPermit(task));
    }

    /** Dropping the guard unlocks the mutex. Whatever poison its holder had to leave has been left by
        then: the flag is already that of the run. */
    method DropGuard(task: nat, ghost s: Step<T>)
      requires Valid() && Enabled(State(run), s)
      requires s == Step.DropPermit(task) || s == DropUnpolled(task) || s == ReleaseGuard(task)
      modifies this
      ensures Valid() && run == Then(old(run), s)
      ensures Snapshot() == Mutex(old(data), old(poison.failed), None, old(stages)[task := Away])
    {
      holder, stages := None, stages[task := Away];
      run := Then(run, s);
    }

    /** An action that is under way writes. */
    method WriteData(task: nat, value: T)
      requires Valid() && (At(task).Acting? || (At(task).Awaiting? && !At(task).terminated))
      modifies this`data, this`run
      ensures Valid() && run == Then(old(run), Write(task, value)) && data == value
    {
      hide Poison, FlagsOf, NewFlags, Borrow;
      assert At(task) == State(run).At(task);
      data := value;
      run := Then(run, Write(task, value));
    }

    /** A synchronous action, from permit to unlocked mutex. */
    method Perform(task: nat, panicking: bool, action: T -> Ending<T>)
      requires Valid() && At(task).Permitted?
      modifies this, poison
      ensures Valid()
      ensures var e := action(old(data));
              run == Then(Then(Then(Then(old(run), BeginSync(task, panicking)), Write(task, e.data)),
                               EndSync(task, e.Unwound?)), ReleaseGuard(task))
      ensures var e := action(old(data));
              var flags := Poison(old(poison.failed), FlagsOf(e.Unwound? && !panicking, false));
              Snapshot() == Mutex(e.data, flags, None, old(stages)[task := Away])
    {
      hide Poison, FlagsOf, Borrow;
      assert At(task) == State(run).At(task);
      stages := stages[task := Acting(At(task).ok, panicking, data)];
      run := Then(run, BeginSync(task, panicking));
      assert Valid();

      var e := action(data);
      WriteData(task, e.data);
      DropLocals(task, panicking, e.Unwound?);
    }

    /** The locals of `Perform` drop before its receiver: first the poisoner, then the guard. */
    method DropLocals(task: nat, panicking: bool, unwinding: bool)
      requires Valid() && At(task).Acting? && At(task).panicking == panicking
      modifies this, poison
      ensures Valid()
      ensures run == Then(Then(old(run), EndSync(task, unwinding)), ReleaseGuard(task))
      ensures var flags := Poison(old(poison.failed), FlagsOf(unwinding && !panicking, false));
              Snapshot() == Mutex(old(data), flags, None, old(stages)[task := Away])
    {
      hide Poison, FlagsOf, Borrow;
      ghost var m := State(run);
      assert Enabled(m, EndSync(task, unwinding)) && m.At(task).panicking == panicking;
      poison.Done(panicking, panicking || unwinding, false);
      stages := stages[task := Leaving];
      run := Then(run, EndSync(task, unwinding));
      assert Valid();
      DropGuard(task, ReleaseGuard(task));
    }

    /** Calling an async action runs none of it. */
    method PerformAsync(task: nat)
      requires Valid() && At(task).Permitted?
      modifies this
      ensures Valid() && run == Then(old(run), MakeFuture(task))
      ensures Snapshot() == Mutex(old(data), old(poison.failed), old(holder),
                                  old(stages)[task := Deferred(old(At(task)).ok)])
    {
      assert At(task) == State(run).At(task);
      stages := stages[task := Deferred(At(task).ok)];
      run := Then(run, MakeFuture(task));
    }

    /** One poll of the future of an async action; only the first makes the poisoner. A call that
        unwinds returns nothing. */
    method Poll(task: nat, panicking: bool, action: T -> Polled<T>) returns (p: Option<Poll<()>>)
      requires Valid() && (At(task).Deferred? || (At(task).Awaiting? && !At(task).terminated))
      modifies this, poison
      ensures Valid()
      ensures var answer := action(old(data));
              && (p == match answer case Suspended(_) => Some(Pending) case Completed(_) => Some(Ready(())) case Panicked(_) => None)
              && run == PollSteps(old(run), old(At(task).Deferred?), task, panicking, answer)
      ensures var answer, was, flags := action(old(data)), old(At(task)), old(poison.failed);
              var madePanicking := if was.Deferred? then panicking else was.panicking;
              match answer
              case Suspended(left) =>
                && data == left && poison.failed == flags && holder == Some(task)
                && At(task).Awaiting? && At(task).panicking == madePanicking && !At(task).terminated
              case Completed(left) =>
                && data == left && holder == None && stages == old(stages)[task := Away]
                && poison.failed == (if panicking && !madePanicking then Poison(flags, FlagsOf(true, false)) else flags)
              case Panicked(left) =>
                && data == left && holder == None && stages == old(stages)[task := Away]
                && poison.failed == Poison(flags, FlagsOf(!madePanicking, true))
    {
      hide Poison, FlagsOf, NewFlags, Borrow, Apply, Enabled, State, Legal;
      NothingAdded(poison.failed);
      HolderInside(task);
      if At(task).Deferred? {
        MakePoisoner(task, panicking);
      }
      var answer := action(data);
      WriteData(task, answer.data);
      match answer {
        case Suspended(_) =>
          p := Some(Pending);
        case Completed(_) =>
          Terminate(task);
          DropPoisoner(task, panicking);
          p := Some(Ready(()));
        case Panicked(_) =>
          DropPoisoner(task, true);
          p := None;
      }
    }

    /** The first poll of an async action makes its poisoner. */
    method MakePoisoner(task: nat, panicking: bool)
      requires Valid() && At(task).Deferred?
      modifies this`stages, this`run
      ensures Valid() && run == Then(old(run), FirstPoll(task, panicking))
      ensures stages == old(stages)[task := Awaiting(old(At(task)).ok, panicking, data, false)]
    {
      hide Poison, FlagsOf, NewFlags, Borrow;
      assert At(task) == State(run).At(task);
      stages := stages[task := Awaiting(At(task).ok, panicking, data, false)];
      run := Then(run, FirstPoll(task, panicking));
    }

    /** The awaited action is done: its poisoner is told so. */
    method Terminate(task: nat)
      requires Valid() && At(task).Awaiting? && !At(task).terminated
      modifies this`stages, this`run
      ensures Valid() && run == Then(old(run), Complete(task))
      ensures stages == old(stages)[task := old(At(task)).(terminated := true)]
    {
      hide Poison, FlagsOf, NewFlags, Borrow;
      assert At(task) == State(run).At(task);
      stages := stages[task := At(task).(terminated := true)];
      run := Then(run, Complete(task));
    }

    /** What drops once the awaited action is gone: the poisoner, then the guard. */
    method DropPoisoner(task: nat, panicking: bool)
      requires Valid() && At(task).Awaiting?
      modifies this, poison
      ensures Valid()
      ensures run == Then(Then(old(run), Step.DropPoisoner(task, panicking)), ReleaseGuard(task))
      ensures var panics, cancels := panicking && !old(At(task)).panicking, !old(At(task)).terminated;
              var flags := Poison(old(poison.failed), FlagsOf(panics, cancels));
              Snapshot() == Mutex(old(data), flags, None, old(stages)[task := Away])
    {
      assert At(task) == State(run).At(task);
      hide Poison, FlagsOf, NewFlags, Borrow;
      var stage := At(task);
      NewFlagsAre(stage.panicking, panicking, !stage.terminated);
      assert stages[task := Leaving][task := Away] == stages[task := Away];
      poison.Done(stage.panicking, panicking, !stage.terminated);
      stages := stages[task := Leaving];
      run := Then(run, Step.DropPoisoner(task, panicking));
      assert Valid();
      DropGuard(task, ReleaseGuard(task));
    }

    /** Dropping the future of an async action, at any point. If the action had been polled, it drops
        first, and its destructors may still change the data, to what they leave as `left`; then the
        poisoner, and then the guard. `panicking` is whether the thread is panicking by then. */
    method DropFuture(task: nat, panicking: bool, left: T)
      requires Valid() && (At(task).Deferred? || (At(task).Awaiting? && !At(task).terminated))
      modifies this, poison
      ensures Valid()
      ensures if old(At(task)).Deferred? then
                Snapshot() == Mutex(old(data), old(poison.failed), None, old(stages)[task := Away])
              else
                var flags := Poison(old(poison.failed), FlagsOf(panicking && !old(At(task)).panicking, true));
                Snapshot() == Mutex(left, flags, None, old(stages)[task := Away])
      ensures run == if old(At(task).Deferred?) then Then(old(run), DropUnpolled(task))
                     else Then(Then(Then(old(run), Write(task, left)), Step.DropPoisoner(task, panicking)),
                               ReleaseGuard(task))
    {
      hide Poison, FlagsOf, NewFlags, Borrow;
      assert At(task) == State(run).At(task);
      if At(task).Deferred? {
        DropGuard(task, DropUnpolled(task));
      } else {
        WriteData(task, left);
        DropPoisoner(task, panicking);
      }
    }
  }

  /** The single steps of one poll of an async action. */
  function PollSteps<T>(r: Run<T>, first: bool, task: nat, panicking: bool, answer: Polled<T>): Run<T> {
    var begun := if first then Then(r, FirstPoll(task, panicking)) else r;
    var written := Then(begun, Write(task, answer.data));
    match answer
    case Suspended(_) => written
    case Completed(_) =>
      Then(Then(Then(written, Complete(task)), DropPoisoner(task, panicking)), ReleaseGuard(task))
    case Panicked(_) =>
      Then(Then(written, DropPoisoner(task, true)), ReleaseGuard(task))
  }
}
