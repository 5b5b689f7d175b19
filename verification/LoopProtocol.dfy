/** The functor queue, the eventfd and the quit flag of src/EventLoop.cc under any
    interleaving of the loop thread with any number of other threads. */
module LoopProtocol {

  /** An eventfd refuses the write that would take its counter past this. */
  const EVENTFD_MAX: nat := 0xffff_ffff_ffff_fffe

  // --------------------------------------------- atomic actions on the loop

  /** The fields of an EventLoop object that threads share. */
  datatype Shared<F> = Shared(quit: bool, calling: bool, pending: seq<F>, counter: nat)

  /** `pendingFunctors_.emplace_back(cb)` under the mutex. */
  function Push<F>(sh: Shared<F>, f: F): Shared<F> {
    sh.(pending := sh.pending + [f])
  }

  /** `wakeup()`: writes 1 to the non-blocking eventfd. */
  function Wakeup<F>(sh: Shared<F>): Shared<F> {
    if sh.counter < EVENTFD_MAX then sh.(counter := sh.counter + 1) else sh
  }

  /** `handleRead()`: reading an eventfd zeroes it. */
  function Drain<F>(sh: Shared<F>): Shared<F> {
    sh.(counter := 0)
  }

  /** The condition under which queueInLoop wakes the loop up. */
  predicate NeedsWakeup<F>(sh: Shared<F>, inLoopThread: bool) {
    !inLoopThread || sh.calling
  }

  // ------------------------------------------------------------- the system

  /** Where the loop thread is. `SelfPushed` is inside queueInLoop called by a
      functor, between the push and the wakeup. */
  datatype LoopPc =
    | Before | Top | AtPoll | Dispatch(woken: bool) | BeforeSwap | Running | SelfPushed | Exited

  /** Where another thread is inside a call to this loop; a thread that is not
      in the map is in none. */
  datatype OtherPc = Pushed | QuitSet

  type ThreadId = nat

  /** `log` lists the functors in the order the mutex admitted them, `executed`
      those run so far, `mine` those the loop's own thread queued, `cut` is the length of the log at the last swap, `polls`
      counts the times the loop entered poll, and `early` counts the functors in the
      queue that the loop's own thread put there before `loop()`. */
  datatype State<F> = State(
    sh: Shared<F>, pc: LoopPc, batch: seq<F>, others: map<ThreadId, OtherPc>,
    log: seq<F>, executed: seq<F>, mine: seq<F>, cut: nat, polls: nat, early: nat)

  function Init<F>(): State<F> {
    State(Shared(false, false, [], 0), Before, [], map[], [], [], [], 0, 0, 0)
  }

  datatype Step<F> =
    // the loop thread
    | EnterLoop
    | CheckQuit
    | PollReturn(woken: bool)
    | HandleRead
    | EndDispatch
    | Swap
    | RunFunctor
    | EndBatch
    | SelfQueue(f: F)
    | SelfWake
    | SelfQuit
    // any other thread
    | OtherPush(t: ThreadId, f: F)
    | OtherQuit(t: ThreadId)
    | OtherWake(t: ThreadId)

  predicate Enabled<F>(s: State<F>, step: Step<F>) {
    match step
    case EnterLoop => s.pc == Before
    case CheckQuit => s.pc == Top
    // a timeout or another fd may end the wait; the wakeup channel is reported
    // only when the eventfd is readable
    case PollReturn(woken) => s.pc == AtPoll && (woken ==> s.sh.counter > 0)
    case HandleRead => s.pc == Dispatch(true)
    case EndDispatch => s.pc == Dispatch(false)
    case Swap => s.pc == BeforeSwap
    case RunFunctor => s.pc == Running && s.batch != []
    case EndBatch => s.pc == Running && s.batch == []
    // handlers and functors are user code that may call back into the loop
    case SelfQueue(_) => s.pc == Before || s.pc.Dispatch? || s.pc == Running
    case SelfWake => s.pc == SelfPushed
    case SelfQuit => s.pc == Before || s.pc.Dispatch? || s.pc == Running
    case OtherPush(t, _) => t !in s.others
    case OtherQuit(t) => t !in s.others
    case OtherWake(t) => t in s.others
  }

  function Do<F>(s: State<F>, step: Step<F>): State<F>
    requires Enabled(s, step)
  {
    match step
    case EnterLoop => s.(sh := s.sh.(quit := false), pc := Top)
    case CheckQuit =>
      if s.sh.quit then s.(pc := Exited) else s.(pc := AtPoll, polls := s.polls + 1)
    case PollReturn(woken) => s.(pc := Dispatch(woken))
    case HandleRead => s.(sh := Drain(s.sh), pc := Dispatch(false))
    case EndDispatch => s.(sh := s.sh.(calling := true), pc := BeforeSwap)
    case Swap =>
      s.(sh := s.sh.(pending := []), batch := s.sh.pending, pc := Running, cut := |s.log|, early := 0)
    case RunFunctor => s.(batch := s.batch[1..], executed := s.executed + [s.batch[0]])
    case EndBatch => s.(sh := s.sh.(calling := false), pc := Top)
    case SelfQueue(f) =>
      s.(sh := Push(s.sh, f), log := s.log + [f], mine := s.mine + [f],
         pc := if NeedsWakeup(s.sh, true) then SelfPushed else s.pc,
         early := if s.pc == Before then s.early + 1 else s.early)
    case SelfWake => s.(sh := Wakeup(s.sh), pc := Running)
    case SelfQuit => s.(sh := s.sh.(quit := true))
    case OtherPush(t, f) =>
      s.(sh := Push(s.sh, f), log := s.log + [f], others := s.others[t := Pushed])
    case OtherQuit(t) => s.(sh := s.sh.(quit := true), others := s.others[t := QuitSet])
    case OtherWake(t) => s.(sh := Wakeup(s.sh), others := s.others - {t})
  }

  ghost predicate Legal<F>(s: State<F>, steps: seq<Step<F>>)
    decreases |steps|
  {
    steps == [] || (Enabled(s, steps[0]) && Legal(Do(s, steps[0]), steps[1..]))
  }

  ghost function Exec<F>(s: State<F>, steps: seq<Step<F>>): State<F>
    requires Legal(s, steps)
    decreases |steps|
  {
    if steps == [] then s else Exec(Do(s, steps[0]), steps[1..])
  }

  // -------------------------------------------------------------- invariant

  /** Some other thread is past its write to the loop and owes it a wakeup. */
  ghost predicate Owed<F>(s: State<F>, what: OtherPc) {
    exists t :: t in s.others && s.others[t] == what
  }

  /** The loop's next poll returns at once, or somebody is about to make it. */
  ghost predicate WillWake<F>(s: State<F>, what: OtherPc) {
    s.sh.counter > 0 || Owed(s, what) || (what == Pushed && s.pc == SelfPushed)
  }

  /** Between the swap and the next return from poll nobody will look at the queue. */
  predicate QueueUnattended(pc: LoopPc) {
    pc == Running || pc == SelfPushed || pc == Top || pc == AtPoll || pc == Before
  }

  ghost predicate Inv<F>(s: State<F>) {
    && (s.sh.calling <==> s.pc == BeforeSwap || s.pc == Running || s.pc == SelfPushed)
    && (s.batch != [] ==> s.pc == Running || s.pc == SelfPushed)
    && (s.pc == Before ==> s.cut == 0)
    // the wakeup protocol
    && s.early <= |s.sh.pending|
    && (QueueUnattended(s.pc) && |s.sh.pending| > s.early ==> WillWake(s, Pushed))
    && (s.pc == AtPoll && s.sh.quit ==> WillWake(s, QuitSet))
    // first in, first out, exactly once
    && Fifo(s.log, s.cut, s.executed, s.batch, s.sh.pending)
  }

  lemma OwedStays<F>(s: State<F>, s': State<F>, what: OtherPc)
    requires Owed(s, what)
    requires forall t :: t in s.others ==> t in s'.others && s'.others[t] == s.others[t]
    ensures Owed(s', what)
  {
    var t :| t in s.others && s.others[t] == what;
    assert t in s'.others && s'.others[t] == what;
  }

  lemma WakeupMakesPositive<F>(sh: Shared<F>)
    ensures Wakeup(sh).counter > 0
  {
  }

  /** The order invariant on its own: what has run and the rest of the batch are
      the log up to the last swap, the queue is the log from there on. */
  ghost predicate Fifo<F>(log: seq<F>, cut: nat, executed: seq<F>, batch: seq<F>, pending: seq<F>) {
    cut <= |log| && executed + batch == log[..cut] && pending == log[cut..]
  }

  lemma FifoRun<F>(log: seq<F>, cut: nat, executed: seq<F>, batch: seq<F>, pending: seq<F>)
    requires Fifo(log, cut, executed, batch, pending) && batch != []
    ensures Fifo(log, cut, executed + [batch[0]], batch[1..], pending)
  {
    assert (executed + [batch[0]]) + batch[1..] == executed + batch;
  }

  lemma FifoSwap<F>(log: seq<F>, cut: nat, executed: seq<F>, pending: seq<F>)
    requires Fifo(log, cut, executed, [], pending)
    ensures Fifo(log, |log|, executed, pending, [])
  {
    assert executed + [] == executed;
    assert log[..cut] + log[cut..] == log == log[..|log|];
  }

  lemma FifoPush<F>(log: seq<F>, cut: nat, executed: seq<F>, batch: seq<F>, pending: seq<F>, f: F)
    requires Fifo(log, cut, executed, batch, pending)
    ensures Fifo(log + [f], cut, executed, batch, pending + [f])
  {
    assert (log + [f])[..cut] == log[..cut];
    assert (log + [f])[cut..] == log[cut..] + [f];
  }

  lemma FifoStep<F>(s: State<F>, step: Step<F>)
    requires Inv(s) && Enabled(s, step)
    ensures var s' := Do(s, step); Fifo(s'.log, s'.cut, s'.executed, s'.batch, s'.sh.pending)
  {
    if step.RunFunctor? {
      FifoRun(s.log, s.cut, s.executed, s.batch, s.sh.pending);
    } else if step.Swap? {
      FifoSwap(s.log, s.cut, s.executed, s.sh.pending);
    } else if step.SelfQueue? || step.OtherPush? {
      FifoPush(s.log, s.cut, s.executed, s.batch, s.sh.pending, step.f);
    }
  }

  lemma WakeupStep<F>(s: State<F>, step: Step<F>, what: OtherPc)
    requires Enabled(s, step) && WillWake(s, what)
    requires step != HandleRead
    ensures WillWake(Do(s, step), what)
  {
    var s' := Do(s, step);
    if step.OtherWake? || step.SelfWake? {
      WakeupMakesPositive(s.sh);
    } else if Owed(s, what) {
      var t :| t in s.others && s.others[t] == what;
      assert t in s'.others && s'.others[t] == what;
    }
  }

  lemma InvStep<F>(s: State<F>, step: Step<F>)
    requires Inv(s) && Enabled(s, step)
    ensures Inv(Do(s, step))
  {
    var s' := Do(s, step);
    FifoStep(s, step);
    if step != HandleRead {
      if WillWake(s, Pushed) { WakeupStep(s, step, Pushed); }
      if WillWake(s, QuitSet) { WakeupStep(s, step, QuitSet); }
    }
    match step
    case OtherPush(t, f) => assert s'.others[t] == Pushed;
    case OtherQuit(t) => assert s'.others[t] == QuitSet;
    case _ =>
  }

  lemma {:induction false} InvRun<F>(s: State<F>, steps: seq<Step<F>>)
    requires Inv(s) && Legal(s, steps)
    ensures Inv(Exec(s, steps))
    decreases |steps|
  {
    if steps != [] {
      InvStep(s, steps[0]);
      InvRun(Do(s, steps[0]), steps[1..]);
    }
  }

  // ------------------------------------------------------- reachable states

  ghost predicate Reached<F(!new)>(s: State<F>) {
    exists steps: seq<Step<F>> :: Legal(Init<F>(), steps) && Exec(Init<F>(), steps) == s
  }

  lemma {:induction false} ExecSnoc<F>(s: State<F>, steps: seq<Step<F>>, step: Step<F>)
    requires Legal(s, steps) && Enabled(Exec(s, steps), step)
    ensures Legal(s, steps + [step])
    ensures Exec(s, steps + [step]) == Do(Exec(s, steps), step)
    decreases |steps|
  {
    if steps == [] {
      assert (steps + [step])[1..] == [];
    } else {
      ExecSnoc(Do(s, steps[0]), steps[1..], step);
      assert (steps + [step])[1..] == steps[1..] + [step];
    }
  }

  lemma InitReached<F(!new)>()
    ensures Reached(Init<F>())
  {
    assert Legal(Init<F>(), []) && Exec(Init<F>(), []) == Init<F>();
  }

  lemma ReachedStep<F(!new)>(s: State<F>, step: Step<F>)
    requires Reached(s) && Enabled(s, step)
    ensures Reached(Do(s, step))
  {
    var steps: seq<Step<F>> :| Legal(Init<F>(), steps) && Exec(Init<F>(), steps) == s;
    ExecSnoc(Init<F>(), steps, step);
    assert Legal(Init<F>(), steps + [step]);
  }

  lemma ReachedInv<F(!new)>(s: State<F>)
    requires Reached(s)
    ensures Inv(s)
  {
    var steps: seq<Step<F>> :| Legal(Init<F>(), steps) && Exec(Init<F>(), steps) == s;
    InvRun(Init<F>(), steps);
  }

  // --------------------------------------------------------------- theorems

  /** No lost wakeup. When the loop waits in poll and the queue holds any functor
      but those its own thread queued before loop(), the eventfd is readable or
      another thread is between its push and its wakeup. */
  lemma NoLostWakeup<F>(steps: seq<Step<F>>)
    requires Legal(Init<F>(), steps)
    ensures var s := Exec(Init<F>(), steps);
            s.pc == AtPoll && |s.sh.pending| > s.early ==> s.sh.counter > 0 || Owed(s, Pushed)
  {
    InvRun(Init<F>(), steps);
  }

  /** The exception is real. A functor queued by the loop's own thread before
      loop() leaves the loop waiting with nobody to wake it, exactly when nobody
      else happened to have woken it or to be about to. */
  lemma QueueBeforeLoopIsLost<F>(steps: seq<Step<F>>, f: F)
    requires Legal(Init<F>(), steps) && Exec(Init<F>(), steps).pc == Before
    ensures var s := Exec(Init<F>(), steps);
            var more := [SelfQueue(f), EnterLoop, CheckQuit];
            && Legal(s, more)
            && var w := Exec(s, more);
               && w.pc == AtPoll && w.sh.pending != []
               && (!WillWake(w, Pushed) <==> s.sh.counter == 0 && !Owed(s, Pushed))
  {
    InvRun(Init<F>(), steps);
    var s := Exec(Init<F>(), steps);
    var more := [SelfQueue(f), EnterLoop, CheckQuit];
    var s1 := Do(s, more[0]);
    var s2 := Do(s1, EnterLoop);
    assert more[1..] == [EnterLoop, CheckQuit] && more[1..][1..] == [CheckQuit] && more[1..][1..][1..] == [];
    assert Enabled(s2, CheckQuit);
    var w := Do(s2, CheckQuit);
    assert Legal(w, more[1..][1..][1..]);
    assert Exec(s2, more[1..][1..]) == Exec(w, more[1..][1..][1..]) == w;
    assert Exec(s1, more[1..]) == w;
    assert w.others == s.others && w.sh.counter == s.sh.counter;
    if Owed(s, Pushed) { OwedStays(s, w, Pushed); }
    if Owed(w, Pushed) { OwedStays(w, s, Pushed); }
  }

  /** First in, first out, exactly once: what has run, then the rest of the
      batch, then the queue, is the log of queued functors in lock order. */
  lemma FifoExactlyOnce<F>(steps: seq<Step<F>>)
    requires Legal(Init<F>(), steps)
    ensures var s := Exec(Init<F>(), steps);
            s.executed + s.batch + s.sh.pending == s.log
  {
    InvRun(Init<F>(), steps);
    var s := Exec(Init<F>(), steps);
    assert s.log == s.log[..s.cut] + s.log[s.cut..];
  }

  lemma {:induction false} PollsGrow<F>(s: State<F>, steps: seq<Step<F>>)
    requires Legal(s, steps)
    ensures s.polls <= Exec(s, steps).polls
    decreases |steps|
  {
    if steps != [] {
      PollsGrow(Do(s, steps[0]), steps[1..]);
    }
  }

  /** A batch is closed: from the swap on, and until the loop has polled again,
      only the functors that were queued at the swap run, whatever they and the
      other threads queue meanwhile. */
  lemma {:induction false} BatchIsClosed<F>(s: State<F>, steps: seq<Step<F>>)
    requires Inv(s) && Legal(s, steps) && Exec(s, steps).polls == s.polls
    requires s.pc == Running || s.pc == SelfPushed || s.pc == Top
    ensures Exec(s, steps).cut == s.cut
    ensures Exec(s, steps).executed <= s.executed + s.batch
    decreases |steps|
  {
    if steps == [] {
    } else {
      var s1 := Do(s, steps[0]);
      InvStep(s, steps[0]);
      PollsGrow(s1, steps[1..]);
      if s1.pc == Exited {
        ExitedIsFinal(s1, steps[1..]);
      } else {
        BatchIsClosed(s1, steps[1..]);
        if steps[0] == RunFunctor {
          assert s1.executed + s1.batch == s.executed + s.batch;
        }
      }
    }
  }

  lemma {:induction false} ExitedIsFinal<F>(s: State<F>, steps: seq<Step<F>>)
    requires s.pc == Exited && Legal(s, steps)
    ensures var e := Exec(s, steps); e.pc == Exited && e.cut == s.cut && e.executed == s.executed && e.polls == s.polls
    decreases |steps|
  {
    if steps != [] {
      ExitedIsFinal(Do(s, steps[0]), steps[1..]);
    }
  }

  /** Number of functors a step sequence runs. */
  function Ran<F>(steps: seq<Step<F>>): nat {
    if steps == [] then 0 else (if steps[0] == RunFunctor then 1 else 0) + Ran(steps[1..])
  }

  /** So a batch ends after exactly as many functors as were swapped out, even
      if each of them queues itself again. */
  lemma {:induction false} BatchLength<F>(s: State<F>, steps: seq<Step<F>>)
    requires Inv(s) && Legal(s, steps) && Exec(s, steps).polls == s.polls
    requires s.pc == Running || s.pc == SelfPushed || s.pc == Top
    ensures Ran(steps) + |Exec(s, steps).batch| == |s.batch|
    decreases |steps|
  {
    if steps != [] {
      var s1 := Do(s, steps[0]);
      InvStep(s, steps[0]);
      PollsGrow(s1, steps[1..]);
      if s1.pc == Exited {
        ExitedRunsNothing(s1, steps[1..]);
      } else {
        BatchLength(s1, steps[1..]);
      }
    }
  }

  lemma {:induction false} ExitedRunsNothing<F>(s: State<F>, steps: seq<Step<F>>)
    requires s.pc == Exited && Legal(s, steps)
    ensures Ran(steps) == 0 && Exec(s, steps).batch == s.batch
    decreases |steps|
  {
    if steps != [] {
      ExitedRunsNothing(Do(s, steps[0]), steps[1..]);
    }
  }

  lemma {:induction false} CutGrows<F>(s: State<F>, steps: seq<Step<F>>)
    requires Inv(s) && Legal(s, steps)
    ensures s.cut <= Exec(s, steps).cut
    decreases |steps|
  {
    if steps != [] {
      InvStep(s, steps[0]);
      CutGrows(Do(s, steps[0]), steps[1..]);
    }
  }

  /** Nothing waits for a second round: once an iteration is over, every functor
      queued by the time it polled has run, in its place. */
  lemma ServedNextIteration<F>(s: State<F>, steps: seq<Step<F>>)
    requires Inv(s) && Legal(s, steps) && Exec(s, steps).pc == Top
    requires s.pc == AtPoll || s.pc.Dispatch? || s.pc == BeforeSwap
    ensures s.log <= Exec(s, steps).executed
  {
    InvRun(s, steps);
    SwapComes(s, steps);
    LogGrows(s, steps);
    var e := Exec(s, steps);
    assert e.executed == e.executed + e.batch == e.log[..e.cut];
  }

  lemma {:induction false} SwapComes<F>(s: State<F>, steps: seq<Step<F>>)
    requires Inv(s) && Legal(s, steps) && Exec(s, steps).pc == Top
    requires s.pc == AtPoll || s.pc.Dispatch? || s.pc == BeforeSwap
    ensures |s.log| <= Exec(s, steps).cut
    decreases |steps|
  {
    var s1 := Do(s, steps[0]);
    InvStep(s, steps[0]);
    if steps[0] == Swap {
      CutGrows(s1, steps[1..]);
    } else {
      SwapComes(s1, steps[1..]);
    }
  }

  lemma {:induction false} LogGrows<F>(s: State<F>, steps: seq<Step<F>>)
    requires Legal(s, steps)
    ensures s.log <= Exec(s, steps).log
    decreases |steps|
  {
    if steps != [] {
      LogGrows(Do(s, steps[0]), steps[1..]);
    }
  }

  /** Quit wakes the loop: waiting in poll with the flag set means the eventfd is
      readable or the quitting thread is about to write it. */
  lemma QuitWakes<F>(steps: seq<Step<F>>)
    requires Legal(Init<F>(), steps)
    ensures var s := Exec(Init<F>(), steps);
            s.pc == AtPoll && s.sh.quit ==> s.sh.counter > 0 || Owed(s, QuitSet)
  {
    InvRun(Init<F>(), steps);
  }

  /** Once the flag is set inside loop(), it stays set and the loop never enters
      poll again: at most the current iteration completes. */
  lemma {:induction false} QuitEndsTheLoop<F>(s: State<F>, steps: seq<Step<F>>)
    requires s.pc != Before && s.sh.quit && Legal(s, steps)
    ensures var e := Exec(s, steps); e.sh.quit && e.polls == s.polls && e.pc != Before
    decreases |steps|
  {
    if steps != [] {
      QuitEndsTheLoop(Do(s, steps[0]), steps[1..]);
    }
  }

  /** A quit that arrives before loop() is forgotten, by whomever it was made. */
  lemma QuitBeforeLoopIsLost<F>(steps: seq<Step<F>>)
    requires Legal(Init<F>(), steps) && Exec(Init<F>(), steps).pc == Before
    ensures var s := Exec(Init<F>(), steps);
            && Legal(s, [EnterLoop, CheckQuit])
            && Exec(s, [EnterLoop, CheckQuit]).pc == AtPoll && !Exec(s, [EnterLoop, CheckQuit]).sh.quit
  {
    var s := Exec(Init<F>(), steps);
    var two: seq<Step<F>> := [EnterLoop, CheckQuit];
    var s1 := Do(s, EnterLoop);
    assert two[1..] == [CheckQuit] && two[1..][1..] == [];
    assert Enabled(s1, CheckQuit);
    assert Legal(Do(s1, CheckQuit), two[1..][1..]);
  }

  /** A quit inside loop() does set the flag, and from then on the loop enters poll
      no more: back at the head of its loop it leaves. */
  lemma QuitTakesEffect<F>(s: State<F>, q: Step<F>, steps: seq<Step<F>>)
    requires s.pc != Before && Enabled(s, q) && (q.SelfQuit? || q.OtherQuit?) && Legal(Do(s, q), steps)
    ensures var e := Exec(Do(s, q), steps);
            && e.sh.quit && e.polls == s.polls
            && (e.pc == Top ==> Enabled(e, CheckQuit) && Do(e, CheckQuit).pc == Exited)
  {
    QuitEndsTheLoop(Do(s, q), steps);
  }

  // ------------------------------------------------------------ the eventfd

  /** The wakeups in a step sequence, by whomever. */
  function Wakes<F>(steps: seq<Step<F>>): nat {
    if steps == [] then 0
    else (if steps[0].OtherWake? || steps[0].SelfWake? then 1 else 0) + Wakes(steps[1..])
  }

  function AtMost(n: nat, max: nat): nat {
    if n < max then n else max
  }

  /** Until handleRead the counter counts the wakeups, up to 2^64 - 2. */
  lemma {:induction false} CounterCountsWakes<F>(s: State<F>, steps: seq<Step<F>>)
    requires Legal(s, steps) && s.sh.counter <= EVENTFD_MAX && HandleRead !in steps
    ensures Exec(s, steps).sh.counter == AtMost(s.sh.counter + Wakes(steps), 0x1_0000_0000_0000_0000 - 2)
    decreases |steps|
  {
    if steps != [] {
      assert steps[0] in steps;
      CounterCountsWakes(Do(s, steps[0]), steps[1..]);
    }
  }

  /** After handleRead the eventfd is readable again exactly when somebody has woken
      the loop since: one wakeup is reported once, and none is made up. */
  lemma DrainedUntilWoken<F>(s: State<F>, steps: seq<Step<F>>)
    requires Enabled(s, HandleRead) && Legal(Do(s, HandleRead), steps) && HandleRead !in steps
    ensures var e := Exec(Do(s, HandleRead), steps);
            && (e.sh.counter > 0 <==> Wakes(steps) > 0)
            && (e.pc == AtPoll ==> (Enabled(e, PollReturn(true)) <==> Wakes(steps) > 0))
  {
    CounterCountsWakes(Do(s, HandleRead), steps);
  }
}
