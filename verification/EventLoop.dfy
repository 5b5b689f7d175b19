/** The methods of src/EventLoop.cc, statement by statement, with the other
    threads let in between any two of their atomic actions. */
module EventLoops {
  import opened Posix
  import opened LoopProtocol

  /** Steps that threads other than the loop's take. */
  predicate IsOther<F>(step: Step<F>) {
    step.OtherPush? || step.OtherQuit? || step.OtherWake?
  }

  /** What the loop thread may rely on between two of its own actions. */
  ghost predicate LoopRely<F>(a: State<F>, b: State<F>) {
    && b.pc == a.pc && b.batch == a.batch && b.executed == a.executed
    && b.cut == a.cut && b.polls == a.polls && b.early == a.early && b.mine == a.mine
    && b.sh.calling == a.sh.calling
    && a.log <= b.log && (a.sh.quit ==> b.sh.quit) && a.sh.counter <= b.sh.counter
  }

  /** What another thread may rely on while it is inside a call to the loop:
      everything else, the loop thread included, may move. */
  ghost predicate OtherRely<F>(a: State<F>, b: State<F>, t: ThreadId) {
    && (t in b.others <==> t in a.others)
    && (t in a.others ==> b.others[t] == a.others[t])
    && a.log <= b.log && a.executed <= b.executed
  }

  /** Any number of steps of other threads stays within what the loop relies on. */
  lemma {:induction false} OthersKeepLoopRely<F>(s: State<F>, steps: seq<Step<F>>)
    requires Legal(s, steps) && forall i :: 0 <= i < |steps| ==> IsOther(steps[i])
    ensures LoopRely(s, Exec(s, steps))
    decreases |steps|
  {
    if steps != [] {
      assert IsOther(steps[0]);
      assert LoopRely(s, Do(s, steps[0]));
      OthersKeepLoopRely(Do(s, steps[0]), steps[1..]);
    }
  }

  /** Any number of steps not taken by thread t stays within what t relies on. */
  lemma {:induction false} AllKeepOtherRely<F>(s: State<F>, steps: seq<Step<F>>, t: ThreadId)
    requires Legal(s, steps)
    requires forall i :: 0 <= i < |steps| ==> IsOther(steps[i]) ==> steps[i].t != t
    ensures OtherRely(s, Exec(s, steps), t)
    decreases |steps|
  {
    if steps != [] {
      assert IsOther(steps[0]) ==> steps[0].t != t;
      assert OtherRely(s, Do(s, steps[0]), t);
      AllKeepOtherRely(Do(s, steps[0]), steps[1..], t);
    }
  }

  lemma CallingWhileRunning<F(!new)>(s: State<F>)
    requires Reached(s)
    ensures s.sh.calling <==> s.pc == BeforeSwap || s.pc == Running || s.pc == SelfPushed
  {
    ReachedInv(s);
  }

  lemma QueueIsLogTail<F(!new)>(s: State<F>)
    requires Reached(s)
    ensures s.cut <= |s.log| && s.sh.pending == s.log[s.cut..]
    ensures s.batch == [] ==> s.executed == s.log[..s.cut]
  {
    ReachedInv(s);
  }

  lemma NothingLeftAtTop<F(!new)>(s: State<F>)
    requires Reached(s)
    ensures s.pc == Before || s.pc == Top ==> s.batch == []
    ensures s.pc == Before ==> s.cut == 0
  {
    ReachedInv(s);
  }

  /** Where the loop's own thread stands. */
  datatype LoopSide<F> = LoopSide(pc: LoopPc, batch: seq<F>, executed: seq<F>, cut: nat, polls: nat)

  ghost function LoopSideOf<F>(s: State<F>): LoopSide<F> {
    LoopSide(s.pc, s.batch, s.executed, s.cut, s.polls)
  }

  /** What a handler or a functor may do to its own loop. */
  datatype Act<F> = Queues(f: F) | Quits

  /** One iteration of the loop: whether epoll reports the wakeup fd, and what
      the handlers dispatched before and after its own do. */
  datatype Round<F> = Round(reported: bool, before: seq<Act<F>>, after: seq<Act<F>>)

  /** The functors among a thread's acts. */
  function QueuedBy<F>(acts: seq<Act<F>>): seq<F> {
    if acts == [] then []
    else
      var last := acts[|acts| - 1];
      QueuedBy(acts[..|acts| - 1]) + if last.Queues? then [last.f] else []
  }

  lemma QueuedBySnoc<F>(acts: seq<Act<F>>, act: Act<F>)
    ensures QueuedBy(acts + [act]) == QueuedBy(acts) + if act.Queues? then [act.f] else []
  {
    assert (acts + [act])[..|acts|] == acts;
  }

  /** What the functors do, called one after the other. */
  function ActsOf<F>(body: F -> seq<Act<F>>, functors: seq<F>): seq<Act<F>> {
    if functors == [] then []
    else
      var last := |functors| - 1;
      ActsOf(body, functors[..last]) + body(functors[last])
  }

  lemma ActsOfNext<F>(body: F -> seq<Act<F>>, functors: seq<F>, i: nat)
    requires i < |functors|
    ensures ActsOf(body, functors[..i + 1]) == ActsOf(body, functors[..i]) + body(functors[i])
  {
    assert functors[..i + 1][..i] == functors[..i];
  }

  /** `cuts` are positions in the log, in order. */
  predicate CutsOk<F>(cuts: seq<nat>, log: seq<F>) {
    forall i, j :: 0 <= i <= j < |cuts| ==> cuts[i] <= cuts[j] <= |log|
  }

  /** What a number of rounds does: in each the handlers, then the functors from one
      cut of the log to the next. */
  function Played<F>(rounds: seq<Round<F>>, cuts: seq<nat>, log: seq<F>, body: F -> seq<Act<F>>): seq<Act<F>>
    requires |cuts| == |rounds| + 1 && CutsOk(cuts, log)
  {
    if rounds == [] then []
    else
      var last := |rounds| - 1;
      Played(rounds[..last], cuts[..|rounds|], log, body)
      + rounds[last].before + rounds[last].after + ActsOf(body, log[cuts[last]..cuts[last + 1]])
  }

  lemma {:induction false} PlayedStable<F>(rounds: seq<Round<F>>, cuts: seq<nat>, log: seq<F>, log': seq<F>,
                                           body: F -> seq<Act<F>>)
    requires |cuts| == |rounds| + 1 && CutsOk(cuts, log) && log <= log'
    ensures CutsOk(cuts, log') && Played(rounds, cuts, log', body) == Played(rounds, cuts, log, body)
  {
    if rounds != [] {
      var last := |rounds| - 1;
      PlayedStable(rounds[..last], cuts[..|rounds|], log, log', body);
      assert log'[cuts[last]..cuts[last + 1]] == log[cuts[last]..cuts[last + 1]];
    }
  }

  lemma PlayedSnoc<F>(rounds: seq<Round<F>>, r: Round<F>, cuts: seq<nat>, cut: nat, log: seq<F>,
                      body: F -> seq<Act<F>>)
    requires |cuts| == |rounds| + 1 && CutsOk(cuts, log) && cuts[|rounds|] <= cut <= |log|
    ensures CutsOk(cuts + [cut], log)
    ensures Played(rounds + [r], cuts + [cut], log, body)
         == Played(rounds, cuts, log, body) + r.before + r.after + ActsOf(body, log[cuts[|rounds|]..cut])
  {
    assert (rounds + [r])[..|rounds|] == rounds && (cuts + [cut])[..|rounds| + 1] == cuts;
  }

  /** One more round in the account, the log having grown meanwhile. */
  lemma PlayedRound<F>(from: seq<Act<F>>, made: seq<Act<F>>, rounds: seq<Round<F>>, r: Round<F>,
                       cuts: seq<nat>, cut: nat, log: seq<F>, log': seq<F>, body: F -> seq<Act<F>>)
    requires |cuts| == |rounds| + 1 && CutsOk(cuts, log) && log <= log' && cuts[|rounds|] <= cut <= |log'|
    requires made == from + Played(rounds, cuts, log, body)
    ensures CutsOk(cuts + [cut], log')
    ensures made + r.before + r.after + ActsOf(body, log'[cuts[|rounds|]..cut])
         == from + Played(rounds + [r], cuts + [cut], log', body)
  {
    PlayedStable(rounds, cuts, log, log', body);
    PlayedSnoc(rounds, r, cuts, cut, log', body);
    Regroup(from, Played(rounds, cuts, log, body), r.before, r.after, ActsOf(body, log'[cuts[|rounds|]..cut]));
  }

  lemma TakeNext<T>(s: seq<T>, i: nat)
    requires i < |s|
    ensures s[..i] + [s[i]] == s[..i + 1]
  {
  }

  lemma Regroup<T>(a: seq<T>, b: seq<T>, c: seq<T>, d: seq<T>, e: seq<T>)
    ensures (a + b) + c + d + e == a + (b + c + d + e)
  {
  }

  class EventLoop<F(!new)> {
    var quit: bool
    var calling: bool
    var pending: seq<F>
    /** Stands for the counter of the eventfd behind wakeupFd_. */
    var eventfd: nat
    /** Where every thread stands, and the history. */
    ghost var p: State<F>
    /** What the loop's own thread has done to the loop, in order. */
    ghost var made: seq<Act<F>>

    function View(): Shared<F>
      reads this
    {
      Shared(quit, calling, pending, eventfd)
    }

    ghost predicate Valid()
      reads this
    {
      p.sh == View() && Reached(p) && p.mine == QueuedBy(made)
    }

    constructor ()
      ensures Valid() && p == Init<F>() && made == []
    {
      quit, calling, pending, eventfd := false, false, [], 0;
      p, made := Init<F>(), [];
      InitReached<F>();
    }

    /** Whoever may run while `me` is between two of its own actions. The body
        is one behaviour the contract allows; callers see only the contract. */
    method LetRun(me: Option<ThreadId>)
      requires Valid()
      modifies this
      ensures Valid()
      ensures me == None ==> LoopRely(old(p), p) && made == old(made)
      ensures me.Some? ==> OtherRely(old(p), p, me.value)
    {
    }

    /** `me` is the calling thread: none for the loop's own. */
    method QueueInLoop(cb: F, me: Option<ThreadId>)
      requires Valid()
      requires me == None ==> Enabled(p, SelfQueue(cb))
      requires me.Some? ==> me.value !in p.others
      modifies this
      ensures Valid()
      ensures me == None ==>
                && LoopSideOf(p) == LoopSideOf(old(p)) && (old(quit) ==> quit)
                && old(p).log + [cb] <= p.log && made == old(made) + [Queues(cb)]
      ensures me.Some? ==> me.value !in p.others && old(p).log + [cb] <= p.log
      // a functor that queues leaves the eventfd readable
      ensures me == None && old(p).pc == Running ==> eventfd > 0
    {
      PushUnlocked(cb, me);
      WakeIfNeeded(me);
    }

    /** The push, and whatever happens once the mutex is free again. */
    method PushUnlocked(cb: F, me: Option<ThreadId>)
      requires Valid()
      requires me == None ==> Enabled(p, SelfQueue(cb))
      requires me.Some? ==> me.value !in p.others
      modifies this
      ensures Valid() && old(p).log + [cb] <= p.log
      ensures me.Some? ==> me.value in p.others
      ensures me == None ==>
                && (calling <==> old(p).pc == Running) && (old(quit) ==> quit)
                && LoopSideOf(p) == LoopSideOf(old(p)).(pc := if calling then SelfPushed else old(p).pc)
                && made == old(made) + [Queues(cb)]
    {
      PushLocked(cb, me);
      LetRun(me);
    }

    method WakeIfNeeded(me: Option<ThreadId>)
      requires Valid()
      requires me == None ==> (calling <==> p.pc == SelfPushed)
      requires me.Some? ==> me.value in p.others
      modifies this
      ensures Valid() && p.log == old(p).log && made == old(made)
      ensures me == None && old(calling) ==> eventfd > 0 && p == Do(old(p), SelfWake)
      ensures me == None && !old(calling) ==> p == old(p)
      ensures me == None && old(calling) ==> LoopSideOf(p) == LoopSideOf(old(p)).(pc := Running)
      ensures me.Some? ==> me.value !in p.others
      ensures me == None ==> quit == old(quit)
    {
      if me.Some? || calling {
        WakeUp(me);
      }
    }

    /** The part of queueInLoop under the mutex. */
    method PushLocked(cb: F, me: Option<ThreadId>)
      requires Valid()
      requires me == None ==> Enabled(p, SelfQueue(cb))
      requires me.Some? ==> me.value !in p.others
      modifies this
      ensures Valid()
      ensures p.log == old(p).log + [cb]
      ensures me == None ==> p == Do(old(p), SelfQueue(cb)) && made == old(made) + [Queues(cb)]
      ensures me.Some? ==> p == Do(old(p), OtherPush(me.value, cb)) && made == old(made)
      // inside a functor a wakeup is due
      ensures me == None ==>
                && (calling <==> old(p).pc == Running)
                && LoopSideOf(p) == LoopSideOf(old(p)).(pc := if calling then SelfPushed else old(p).pc)
    {
      CallingWhileRunning(p);
      pending := pending + [cb];
      if me == None {
        QueuedBySnoc(made, Queues(cb));
        made := made + [Queues(cb)];
      }
      ghost var step := if me == None then SelfQueue(cb) else OtherPush(me.value, cb);
      ReachedStep(p, step);
      p := Do(p, step);
    }

    method WakeUp(me: Option<ThreadId>)
      requires Valid()
      requires me == None ==> p.pc == SelfPushed
      requires me.Some? ==> me.value in p.others
      modifies this
      ensures Valid() && eventfd > 0 && made == old(made)
      ensures me == None ==> p == Do(old(p), SelfWake)
      ensures me.Some? ==> p == Do(old(p), OtherWake(me.value))
    {
      if eventfd < EVENTFD_MAX {
        eventfd := eventfd + 1;
      }
      ghost var step := if me == None then SelfWake else OtherWake(me.value);
      ReachedStep(p, step);
      p := Do(p, step);
    }

    method Quit(me: Option<ThreadId>)
      requires Valid()
      requires me == None ==> Enabled(p, SelfQuit)
      requires me.Some? ==> me.value !in p.others
      modifies this
      ensures Valid()
      ensures me == None ==> quit && p == Do(old(p), SelfQuit) && made == old(made) + [Quits]
      ensures me.Some? ==> me.value !in p.others && eventfd > 0 && old(p).log <= p.log
    {
      SetQuit(me);
      if me.Some? {
        LetRun(me);
        WakeUp(me);
      }
    }

    /** The store to the atomic flag. */
    method SetQuit(me: Option<ThreadId>)
      requires Valid()
      requires me == None ==> Enabled(p, SelfQuit)
      requires me.Some? ==> me.value !in p.others
      modifies this
      ensures Valid() && quit
      ensures me == None ==> p == Do(old(p), SelfQuit) && made == old(made) + [Quits]
      ensures me.Some? ==> p == Do(old(p), OtherQuit(me.value)) && made == old(made)
    {
      quit := true;
      if me == None {
        QueuedBySnoc(made, Quits);
        made := made + [Quits];
      }
      ghost var step := if me == None then SelfQuit else OtherQuit(me.value);
      ReachedStep(p, step);
      p := Do(p, step);
    }

    /** Runs the functor in place on the loop's own thread, queues it otherwise. */
    method RunInLoop(cb: F, me: Option<ThreadId>, body: F -> seq<Act<F>>)
      requires Valid()
      requires me == None ==> p.pc == Before || p.pc == Running || p.pc.Dispatch?
      requires me.Some? ==> me.value !in p.others
      modifies this
      ensures Valid()
      ensures me == None ==> p.pc == old(p).pc && p.executed == old(p).executed && made == old(made) + body(cb)
      ensures me.Some? ==> me.value !in p.others && old(p).log + [cb] <= p.log
    {
      if me == None {
        Perform(body(cb));
      } else {
        QueueInLoop(cb, me);
      }
    }

    method HandleRead()
      requires Valid() && p.pc == Dispatch(true)
      modifies this
      ensures Valid() && p == Do(old(p), LoopProtocol.HandleRead) && eventfd == 0 && made == old(made)
    {
      eventfd := 0;
      ReachedStep(p, LoopProtocol.HandleRead);
      p := Do(p, LoopProtocol.HandleRead);
    }

    /** The queue is swapped out once and exactly that batch is run; `body` is
        what each functor, being user code, does to the loop while it runs. */
    method DoPendingFunctors(body: F -> seq<Act<F>>)
      requires Valid() && p.pc == Dispatch(false)
      modifies this
      ensures Valid() && p.pc == Top && !calling
      ensures p.polls == old(p).polls
      // everything queued before the call has run, in order, and nothing queued
      // after the swap has
      ensures |old(p).log| <= p.cut <= |p.log| && old(p).log <= p.log
      ensures p.executed == p.log[..p.cut] && pending == p.log[p.cut..]
      // each of them has been called, once, in that order, and nothing else has
      ensures old(p).executed <= p.executed
      ensures made == old(made) + ActsOf(body, p.executed[|old(p).executed|..])
    {
      var functors := SwapOut();
      RunBatch(functors, body);
      assert p.executed[|old(p).executed|..] == functors;
      calling := false;
      ReachedStep(p, EndBatch);
      p := Do(p, EndBatch);
      QueueIsLogTail(p);
    }

    /** Calls the functors of the batch one after the other. */
    method RunBatch(functors: seq<F>, body: F -> seq<Act<F>>)
      requires Valid() && p.pc == Running && p.batch == functors
      modifies this
      ensures Valid() && p.pc == Running && p.batch == []
      ensures p.cut == old(p).cut && p.polls == old(p).polls && old(p).log <= p.log
      ensures p.executed == old(p).executed + functors && made == old(made) + ActsOf(body, functors)
    {
      for i := 0 to |functors|
        invariant Valid() && p.pc == Running
        invariant p.batch == functors[i..]
        invariant p.cut == old(p).cut && p.polls == old(p).polls && old(p).log <= p.log
        invariant p.executed == old(p).executed + functors[..i]
        invariant made == old(made) + ActsOf(body, functors[..i])
      {
        ActsOfNext(body, functors, i);
        CallHead(functors[i], body);
      }
      assert functors[..|functors|] == functors;
    }

    /** Calls the functor at the head of the batch. */
    method CallHead(functor: F, body: F -> seq<Act<F>>)
      requires Valid() && p.pc == Running && p.batch != [] && p.batch[0] == functor
      modifies this
      ensures Valid() && p.pc == Running && p.batch == old(p).batch[1..]
      ensures p.cut == old(p).cut && p.polls == old(p).polls && old(p).log <= p.log
      ensures p.executed == old(p).executed + [functor] && made == old(made) + body(functor)
    {
      LetRun(None);
      ReachedStep(p, RunFunctor);
      p := Do(p, RunFunctor);
      Perform(body(functor));
    }

    /** Raises the flag first, so that whatever a functor queues wakes the loop. */
    method SwapOut() returns (functors: seq<F>)
      requires Valid() && p.pc == Dispatch(false)
      modifies this
      ensures Valid() && p.pc == Running && p.batch == functors
      ensures p.polls == old(p).polls && old(p).log <= p.log && p.cut == |p.log|
      ensures p.executed == old(p).executed && made == old(made)
    {
      calling := true;
      ReachedStep(p, EndDispatch);
      p := Do(p, EndDispatch);
      LetRun(None);
      functors := pending;
      pending := [];
      ReachedStep(p, Swap);
      p := Do(p, Swap);
    }

    /** User code on the loop's own thread, a functor or a handler. */
    method Perform(acts: seq<Act<F>>)
      requires Valid() && (p.pc == Before || p.pc == Running || p.pc.Dispatch?)
      modifies this
      ensures Valid() && LoopSideOf(p) == LoopSideOf(old(p)) && old(p).log <= p.log
      ensures made == old(made) + acts && (Quits in acts ==> quit)
    {
      for i := 0 to |acts|
        invariant Valid() && LoopSideOf(p) == LoopSideOf(old(p)) && old(p).log <= p.log
        invariant made == old(made) + acts[..i] && (Quits in acts[..i] ==> quit)
      {
        match acts[i] {
          case Queues(f) => QueueInLoop(f, None);
          case Quits => Quit(None);
        }
      }
    }

    /** The loop itself, for as many rounds as the kernel plays: it ends when it
        finds the flag set, or is waiting in poll when the rounds run out. Each
        round has run everything that was queued when its batch was swapped. */
    method Loop(rounds: seq<Round<F>>, body: F -> seq<Act<F>>) returns (served: nat, ghost cuts: seq<nat>)
      requires Valid() && p.pc == Before
      modifies this
      ensures Valid() && served <= |rounds|
      ensures if p.pc == Exited then quit && p.polls == old(p).polls + served
              else p.pc == AtPoll && served == |rounds| && p.polls == old(p).polls + served + 1
      ensures old(p).log <= p.log && (served > 0 ==> |old(p).log| <= p.cut)
      ensures p.cut <= |p.log| && p.executed == p.log[..p.cut] && pending == p.log[p.cut..]
      // and what has been done is what the handlers and the functors do, round by
      // round, every functor once and in the order of the log
      ensures Accounted(old(made), rounds[..served], cuts, body)
    {
      var more;
      more, cuts := Enter(body);
      served := 0;
      ghost var done := [];
      while more && served < |rounds|
        invariant served <= |rounds| && done == rounds[..served]
        invariant Serving(more, old(made), old(p).log, old(p).polls, done, cuts, body)
      {
        TakeNext(rounds, served);
        more, cuts := Iterate(old(made), old(p).log, old(p).polls, done, rounds[served], cuts, body);
        done, served := rounds[..served + 1], served + 1;
      }
    }

    /** After some rounds the loop waits in poll, or has found the flag set. */
    ghost predicate Serving(more: bool, from: seq<Act<F>>, log: seq<F>, polls: nat, rounds: seq<Round<F>>,
                            cuts: seq<nat>, body: F -> seq<Act<F>>)
      reads this
    {
      && Valid() && p.batch == [] && p.pc == (if more then AtPoll else Exited) && (!more ==> quit)
      && p.polls == polls + |rounds| + (if more then 1 else 0)
      && log <= p.log && (rounds != [] ==> |log| <= p.cut)
      && p.cut <= |p.log| && p.executed == p.log[..p.cut] && pending == p.log[p.cut..]
      && Accounted(from, rounds, cuts, body)
    }

    /** All that the loop's thread has done since `from` is what these rounds do,
        with the functors of each between two cuts of the log, up to the last swap. */
    ghost predicate Accounted(from: seq<Act<F>>, rounds: seq<Round<F>>, cuts: seq<nat>, body: F -> seq<Act<F>>)
      reads this
    {
      && |cuts| == |rounds| + 1 && cuts[0] == 0 && cuts[|rounds|] == p.cut && CutsOk(cuts, p.log)
      && made == from + Played(rounds, cuts, p.log, body)
    }

    /** One time through the while loop, and the test at its head. */
    method Iterate(ghost from: seq<Act<F>>, ghost log: seq<F>, ghost polls: nat, ghost before: seq<Round<F>>,
                   round: Round<F>, ghost cuts: seq<nat>, body: F -> seq<Act<F>>)
      returns (more: bool, ghost next: seq<nat>)
      requires Serving(true, from, log, polls, before, cuts, body)
      modifies this
      ensures Serving(more, from, log, polls, before + [round], next, body)
    {
      next := ServeRound(from, before, round, cuts, body);
      more := KeepsOn(from, before + [round], next, body);
      QueueIsLogTail(p);
    }

    method ServeRound(ghost from: seq<Act<F>>, ghost before: seq<Round<F>>, round: Round<F>, ghost cuts: seq<nat>,
                      body: F -> seq<Act<F>>)
      returns (ghost next: seq<nat>)
      requires Valid() && p.pc == AtPoll && p.batch == [] && Accounted(from, before, cuts, body)
      modifies this
      ensures Valid() && p.pc == Top && p.batch == [] && p.polls == old(p).polls
      ensures old(p).log <= p.log && |old(p).log| <= p.cut
      ensures Accounted(from, before + [round], next, body)
    {
      ServeOnce(round, body);
      next := cuts + [p.cut];
      PlayedRound(from, old(made), before, round, cuts, p.cut, old(p).log, p.log, body);
    }

    /** Poll, dispatch, run the queue. */
    method ServeOnce(round: Round<F>, body: F -> seq<Act<F>>)
      requires Valid() && p.pc == AtPoll && p.batch == []
      modifies this
      ensures Valid() && p.pc == Top && p.batch == [] && p.polls == old(p).polls
      ensures old(p).log <= p.log && |old(p).log| <= p.cut <= |p.log| && old(p).cut <= p.cut
      ensures made == old(made) + round.before + round.after + ActsOf(body, p.log[old(p).cut..p.cut])
    {
      QueueIsLogTail(p);
      var woken := Poll(round.reported);
      DispatchAll(woken, round);
      DoPendingFunctors(body);
      NothingLeftAtTop(p);
      assert old(p).executed == p.executed[..old(p).cut];
      assert p.executed[old(p).cut..] == p.log[old(p).cut..p.cut];
    }

    /** The flag is cleared and looked at for the first time. */
    method Enter(ghost body: F -> seq<Act<F>>) returns (more: bool, ghost cuts: seq<nat>)
      requires Valid() && p.pc == Before
      modifies this
      ensures Serving(more, old(made), old(p).log, old(p).polls, [], cuts, body)
    {
      ClearQuit();
      cuts := [0];
      more := KeepsOn(old(made), [], cuts, body);
      QueueIsLogTail(p);
    }

    method ClearQuit()
      requires Valid() && p.pc == Before
      modifies this
      ensures Valid() && p == Do(old(p), EnterLoop) && p.batch == [] && p.cut == 0 && made == old(made)
    {
      NothingLeftAtTop(p);
      quit := false;
      ReachedStep(p, EnterLoop);
      p := Do(p, EnterLoop);
    }

    /** The test at the head of the while loop. */
    method KeepsOn(ghost from: seq<Act<F>>, ghost rounds: seq<Round<F>>, ghost cuts: seq<nat>,
                   ghost body: F -> seq<Act<F>>)
      returns (more: bool)
      requires Valid() && p.pc == Top && p.batch == [] && Accounted(from, rounds, cuts, body)
      modifies this
      ensures Valid() && p.batch == [] && p.pc == (if more then AtPoll else Exited) && (!more ==> quit)
      ensures p.polls == old(p).polls + (if more then 1 else 0)
      ensures p.cut == old(p).cut && old(p).log <= p.log && Accounted(from, rounds, cuts, body)
    {
      LetRun(None);
      more := !quit;
      ReachedStep(p, CheckQuit);
      p := Do(p, CheckQuit);
      PlayedStable(rounds, cuts, old(p).log, p.log, body);
    }

    /** epoll_wait: the wakeup channel is reported only if its fd is readable. */
    method Poll(reported: bool) returns (woken: bool)
      requires Valid() && p.pc == AtPoll
      modifies this
      ensures Valid() && p.pc == Dispatch(woken)
      ensures p.batch == old(p).batch && p.polls == old(p).polls && old(p).log <= p.log
      ensures p.executed == old(p).executed && p.cut == old(p).cut && made == old(made)
    {
      LetRun(None);
      woken := reported && eventfd > 0;
      ReachedStep(p, PollReturn(woken));
      p := Do(p, PollReturn(woken));
    }

    /** Every active channel's handler runs, the wakeup channel's among them. */
    method DispatchAll(woken: bool, round: Round<F>)
      requires Valid() && p.pc == Dispatch(woken)
      modifies this
      ensures Valid() && p.pc == Dispatch(false)
      ensures p.polls == old(p).polls && old(p).log <= p.log && p.batch == old(p).batch
      ensures p.executed == old(p).executed && p.cut == old(p).cut
      ensures made == old(made) + round.before + round.after
    {
      Perform(round.before);
      if woken {
        LetRun(None);
        HandleRead();
      }
      Perform(round.after);
    }
  }
}
