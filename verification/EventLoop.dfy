/**
 The event loop of src/net/event_loop.cpp as a step system: one loop thread, any number of threads that
 queue functors or ask it to quit, and an eventfd.  Every step is a stretch of code that no other thread
 can observe half-done; between two steps anything may be interleaved.
 */
module EventLoops {
  import opened Bytes

  type Functor = nat
  type Thread = nat

  /** An eventfd refuses the write that would take it past this value. */
  const EVENTFD_MAX: nat := 0xffff_ffff_ffff_fffe

  /** Where the loop thread is.  `Outside` is before `loop()` has cleared `quit_`, and after it returns. */
  datatype Pc =
    | Outside
    | AtTest                       // about to test quit_
    | Polling                      // inside poll
    | Dispatching(wakeup: bool)    // walking the active channels; the wakeup channel is still to come
    | Swapping                     // calling_pending_functors_ is set, the lock not yet taken
    | Calling(batch: seq<Functor>) // the swapped-out functors not yet called

  datatype State = State(
    pc: Pc,
    pending: seq<Functor>,    // pending_functions_
    counter: nat,             // the eventfd
    calling: bool,            // calling_pending_functors_
    quit: bool,               // quit_
    waking: set<Thread>,      // other threads between their store and their wakeup()
    ownWaking: bool,          // the loop thread, between its enqueue and its wakeup()
    executed: seq<Functor>)   // every functor ever called, in order

  const INIT := State(Outside, [], 0, false, false, {}, false, [])

  datatype Step =
    | OtherQueue(t: Thread, f: Functor)
    | OtherQuit(t: Thread)
    | OtherWake(t: Thread)
    | OwnQueue(f: Functor)
    | OwnWake
    | OwnQuit
    | Start
    | TestQuit
    | PollReturn(wakeup: bool)
    | HandleWakeup
    | EndDispatch
    | Swap
    | Call
    | EndCalling

  /** User code on the loop thread runs from a handler, from a functor, or outside `loop()`. */
  predicate UserCode(pc: Pc) {
    pc.Dispatching? || pc.Calling? || pc.Outside?
  }

  predicate Enabled(s: State, step: Step) {
    match step
    case OtherQueue(t, _) => t !in s.waking
    case OtherQuit(t) => t !in s.waking
    case OtherWake(t) => t in s.waking
    case OwnWake => s.ownWaking
    case _ => !s.ownWaking && OwnEnabled(s, step)
  }

  predicate OwnEnabled(s: State, step: Step) {
    match step
    case OwnQueue(_) => UserCode(s.pc)
    case OwnQuit => UserCode(s.pc)
    case Start => s.pc == Outside
    case TestQuit => s.pc == AtTest
    case PollReturn(wakeup) => s.pc == Polling && (wakeup ==> s.counter > 0)
    case HandleWakeup => s.pc == Dispatching(true)
    case EndDispatch => s.pc == Dispatching(false)
    case Swap => s.pc == Swapping
    case Call => s.pc.Calling? && s.pc.batch != []
    case EndCalling => s.pc == Calling([])
    case _ => false
  }

  function Enqueue(s: State, f: Functor): (s': State) {
    s.(pending := s.pending + [f])
  }

  function Write(counter: nat): (c: nat)
    ensures c > 0
  {
    if counter < EVENTFD_MAX then counter + 1 else counter
  }

  function Next(s: State, step: Step): (s': State)
    requires Enabled(s, step)
  {
    match step
    case OtherQueue(t, f) => Enqueue(s, f).(waking := s.waking + {t})
    case OtherQuit(t) => s.(quit := true, waking := s.waking + {t})
    case OtherWake(t) => s.(counter := Write(s.counter), waking := s.waking - {t})
    case OwnQueue(f) => Enqueue(s, f).(ownWaking := s.calling)
    case OwnWake => s.(counter := Write(s.counter), ownWaking := false)
    case OwnQuit => s.(quit := true)
    case Start => s.(pc := AtTest, quit := false)
    case TestQuit => s.(pc := if s.quit then Outside else Polling)
    case PollReturn(wakeup) => s.(pc := Dispatching(wakeup))
    case HandleWakeup => s.(pc := Dispatching(false), counter := 0)
    case EndDispatch => s.(pc := Swapping, calling := true)
    case Swap => s.(pc := Calling(s.pending), pending := [])
    case Call => s.(pc := Calling(s.pc.batch[1..]), executed := s.executed + [s.pc.batch[0]])
    case EndCalling => s.(pc := AtTest, calling := false)
  }

  /** The state after a run, or `None` when some step was not possible. */
  function After(s: State, steps: seq<Step>): (r: Option<State>)
  {
    if steps == [] then Some(s)
    else
      var m := After(s, steps[..|steps| - 1]);
      var last := steps[|steps| - 1];
      if m.Some? && Enabled(m.value, last) then Some(Next(m.value, last)) else None
  }

  /** The loop thread never queues a functor while `loop()` is not running. */
  predicate NoOutsideQueue(s: State, steps: seq<Step>)
    requires After(s, steps).Some?
  {
    steps == [] ||
    var m := After(s, steps[..|steps| - 1]).value;
    NoOutsideQueue(s, steps[..|steps| - 1]) && !(steps[|steps| - 1].OwnQueue? && m.pc == Outside)
  }

  // ---------------------------------------------------------------------------------------------
  // Invariants

  function Batch(pc: Pc): (b: seq<Functor>) {
    if pc.Calling? then pc.batch else []
  }

  /** Somebody has made, or is about to make, the eventfd readable. */
  predicate WakeupComing(s: State) {
    s.counter > 0 || s.waking != {} || s.ownWaking
  }

  /** What holds in every run. */
  predicate OrderInv(s: State) {
    && (s.calling <==> s.pc == Swapping || s.pc.Calling?)
    && (s.ownWaking ==> s.pc.Calling?)
    && (s.pc == Polling && s.quit ==> s.counter > 0 || s.waking != {})
  }

  /** What also holds in runs without queuing outside the loop. */
  predicate WakeInv(s: State) {
    s.pending != [] && !s.pc.Dispatching? && s.pc != Swapping ==> WakeupComing(s)
  }

  lemma StepKeepsOrder(s: State, step: Step)
    requires OrderInv(s) && Enabled(s, step)
    ensures OrderInv(Next(s, step))
  {
  }

  lemma StepKeepsWake(s: State, step: Step)
    requires OrderInv(s) && WakeInv(s) && Enabled(s, step)
    requires !(step.OwnQueue? && s.pc == Outside)
    ensures WakeInv(Next(s, step))
  {
  }

  lemma {:induction false} RunKeepsOrder(s: State, steps: seq<Step>)
    requires OrderInv(s) && After(s, steps).Some?
    ensures OrderInv(After(s, steps).value)
  {
    if steps != [] {
      var init := steps[..|steps| - 1];
      RunKeepsOrder(s, init);
      StepKeepsOrder(After(s, init).value, steps[|steps| - 1]);
    }
  }

  lemma {:induction false} RunKeepsWake(s: State, steps: seq<Step>)
    requires OrderInv(s) && WakeInv(s) && After(s, steps).Some? && NoOutsideQueue(s, steps)
    ensures WakeInv(After(s, steps).value)
  {
    if steps != [] {
      var init := steps[..|steps| - 1];
      RunKeepsOrder(s, init);
      RunKeepsWake(s, init);
      StepKeepsWake(After(s, init).value, steps[|steps| - 1]);
    }
  }

  // ---------------------------------------------------------------------------------------------
  // Theorems over all runs

  /** What a step queues. */
  function Puts(step: Step): (fs: seq<Functor>) {
    match step
    case OtherQueue(_, f) => [f]
    case OwnQueue(f) => [f]
    case _ => []
  }

  /** What the steps of a run queue, in order. */
  function Queued(steps: seq<Step>): (fs: seq<Functor>) {
    if steps == [] then [] else Queued(steps[..|steps| - 1]) + Puts(steps[|steps| - 1])
  }

  /** Functors run exactly once and in the order queued, across every swap and every re-entrant or
      cross-thread queuing: those executed, the rest of the batch and those pending are, in this order,
      the functors ever queued. */
  lemma {:induction false} ExactlyOnceInOrder(steps: seq<Step>)
    requires After(INIT, steps).Some?
    ensures var s := After(INIT, steps).value;
            s.executed + (Batch(s.pc) + s.pending) == Queued(steps)
  {
    if steps != [] {
      var init := steps[..|steps| - 1];
      ExactlyOnceInOrder(init);
      StepConserves(After(INIT, init).value, steps[|steps| - 1]);
    }
  }

  lemma StepConserves(s: State, step: Step)
    requires Enabled(s, step)
    ensures var n := Next(s, step);
            n.executed + (Batch(n.pc) + n.pending) == s.executed + (Batch(s.pc) + s.pending) + Puts(step)
  {
    match step
    case OtherQueue(_, f) => QueuedAtTheEnd(s, f);
    case OwnQueue(f) => QueuedAtTheEnd(s, f);
    case Swap =>
      assert [] + s.pending == s.pending + [];
    case Call =>
      var b := s.pc.batch;
      assert b == [b[0]] + b[1..];
      assert s.executed + (b + s.pending) == (s.executed + [b[0]]) + (b[1..] + s.pending);
    case _ =>
  }

  lemma QueuedAtTheEnd(s: State, f: Functor)
    ensures s.executed + (Batch(s.pc) + s.pending) + [f] == s.executed + (Batch(s.pc) + (s.pending + [f]))
  {
  }

  /** When the loop is in poll with functors pending, poll will return: the eventfd is readable, or a
      thread that has queued has its wakeup still to write. */
  lemma NoLostWakeup(steps: seq<Step>)
    requires After(INIT, steps).Some? && NoOutsideQueue(INIT, steps)
    ensures var s := After(INIT, steps).value;
            s.pc == Polling && s.pending != [] ==> s.counter > 0 || s.waking != {}
  {
    RunKeepsOrder(INIT, steps);
    RunKeepsWake(INIT, steps);
  }

  /** How many passes a run completes. */
  function Passes(steps: seq<Step>): (n: nat) {
    if steps == [] then 0
    else Passes(steps[..|steps| - 1]) + if steps[|steps| - 1] == EndCalling then 1 else 0
  }

  /** A quit() made while `loop()` runs is never slept through, and until the loop is started again at
      most one more pass is completed, after which the loop is at its last test or has been left. */
  lemma QuitEndsTheLoop(before: seq<Step>, quit: Step, after: seq<Step>)
    requires IsQuit(quit) && Start !in after
    requires After(INIT, before).Some? && After(INIT, before).value.pc != Outside
    requires After(INIT, before + [quit] + after).Some?
    ensures var s := After(INIT, before + [quit] + after).value;
            && (s.pc == Polling ==> s.counter > 0 || s.waking != {})
            && Passes(after) <= 1
            && (Passes(after) == 1 ==> s.pc == AtTest || s.pc == Outside)
            && (s.pc == AtTest && !s.ownWaking ==> Next(s, TestQuit).pc == Outside)
  {
    var run := before + [quit] + after;
    RunKeepsOrder(INIT, run);
    assert (before + [quit])[..|before|] == before;
    EndsAfterQuit(before + [quit], after);
  }

  lemma {:induction false} EndsAfterQuit(before: seq<Step>, after: seq<Step>)
    requires before != [] && IsQuit(before[|before| - 1]) && Start !in after
    requires After(INIT, before[..|before| - 1]).Some? && After(INIT, before[..|before| - 1]).value.pc != Outside
    requires After(INIT, before + after).Some?
    ensures var s := After(INIT, before + after).value;
            s.quit && Passes(after) <= 1 && (Passes(after) == 1 ==> s.pc == AtTest || s.pc == Outside)
  {
    if after == [] {
      assert before + after == before;
    } else {
      var init, last := after[..|after| - 1], after[|after| - 1];
      assert (before + after)[..|before + after| - 1] == before + init && (before + after)[|before + after| - 1] == last;
      assert last in after;
      EndsAfterQuit(before, init);
    }
  }

  /** The loop is left exactly at a test that some quit() has preceded since the last start; any other
      test goes on to poll. */
  lemma LoopIsLeftIff(steps: seq<Step>, step: Step)
    requires After(INIT, steps).Some? && Enabled(After(INIT, steps).value, step)
    requires After(INIT, steps).value.pc != Outside
    ensures Next(After(INIT, steps).value, step).pc == Outside <==> step == TestQuit && QuitSinceStart(steps)
    ensures step == TestQuit && !QuitSinceStart(steps) ==> Next(After(INIT, steps).value, step).pc == Polling
  {
    QuitHeardIff(steps);
  }

  /** A write to the eventfd that no read has come after. */
  ghost predicate WokenSinceRead(steps: seq<Step>) {
    exists i :: 0 <= i < |steps| && (steps[i].OtherWake? || steps[i] == OwnWake) && HandleWakeup !in steps[i..]
  }

  /** In every run the eventfd is readable exactly when a wakeup has been written since the last one was
      handled: none is lost, and once it has been handled poll can block again. */
  lemma {:induction false} ReadableIff(steps: seq<Step>)
    requires After(INIT, steps).Some?
    ensures After(INIT, steps).value.counter > 0 <==> WokenSinceRead(steps)
  {
    if steps != [] {
      var init, last := steps[..|steps| - 1], steps[|steps| - 1];
      ReadableIff(init);
      WokenOneMore(init, last);
      assert init + [last] == steps;
    }
  }

  lemma WokenOneMore(init: seq<Step>, last: Step)
    ensures WokenSinceRead(init + [last]) <==>
            last.OtherWake? || last == OwnWake || (WokenSinceRead(init) && last != HandleWakeup)
  {
    var steps := init + [last];
    if last.OtherWake? || last == OwnWake {
      assert steps[|init|..] == [last];
    }
    if WokenSinceRead(init) && last != HandleWakeup {
      var i :| 0 <= i < |init| && (init[i].OtherWake? || init[i] == OwnWake) && HandleWakeup !in init[i..];
      assert steps[i] == init[i] && steps[i..] == init[i..] + [last];
    }
    if WokenSinceRead(steps) && !last.OtherWake? && last != OwnWake {
      var i :| 0 <= i < |steps| && (steps[i].OtherWake? || steps[i] == OwnWake) && HandleWakeup !in steps[i..];
      assert i < |init| && steps[i] == init[i] && steps[i..] == init[i..] + [last];
      assert last in steps[i..];
    }
  }

  // ---------------------------------------------------------------------------------------------
  // The calls the loop does not hear

  predicate IsQuit(step: Step) {
    step.OtherQuit? || step.OwnQuit?
  }

  /** A quit() that no start of the loop has come after. */
  ghost predicate QuitSinceStart(steps: seq<Step>) {
    exists i :: 0 <= i < |steps| && IsQuit(steps[i]) && Start !in steps[i..]
  }

  /** In every run, the loop is asked to stop exactly when some quit(), from whatever thread, has come
      after the last start: one that came earlier is forgotten. */
  lemma {:induction false} QuitHeardIff(steps: seq<Step>)
    requires After(INIT, steps).Some?
    ensures After(INIT, steps).value.quit <==> QuitSinceStart(steps)
  {
    if steps != [] {
      var init, last := steps[..|steps| - 1], steps[|steps| - 1];
      QuitHeardIff(init);
      QuitSinceOneMore(init, last);
      assert init + [last] == steps;
    }
  }

  lemma QuitSinceOneMore(init: seq<Step>, last: Step)
    ensures QuitSinceStart(init + [last]) <==> IsQuit(last) || (QuitSinceStart(init) && last != Start)
  {
    var steps := init + [last];
    if IsQuit(last) {
      assert steps[|init|..] == [last];
    }
    if QuitSinceStart(init) && last != Start {
      var i :| 0 <= i < |init| && IsQuit(init[i]) && Start !in init[i..];
      assert steps[i] == init[i] && steps[i..] == init[i..] + [last];
    }
    if QuitSinceStart(steps) && !IsQuit(last) {
      var i :| 0 <= i < |steps| && IsQuit(steps[i]) && Start !in steps[i..];
      assert i < |init| && steps[i] == init[i] && steps[i..] == init[i..] + [last];
      assert last in steps[i..];
    }
  }

  /** For instance, a quit() just before the loop starts. */
  lemma QuitOutsideIsLost(s: State, t: Thread)
    requires s.pc == Outside && !s.ownWaking && t !in s.waking
    ensures After(s, [OtherQuit(t), Start]).Some?
    ensures !After(s, [OtherQuit(t), Start]).value.quit
  {
    var steps := [OtherQuit(t), Start];
    assert steps[..1] == [OtherQuit(t)] && steps[..1][..0] == [];
    assert After(s, []) == Some(s);
    assert After(s, steps[..1]) == Some(Next(s, OtherQuit(t)));
  }

  /** A functor is queued on the loop thread, and the loop gets to poll without having swapped it out
      and without the call having written its wakeup. */
  ghost predicate PollsPast(n: State, steps: seq<Step>) {
    && After(n, steps).Some? && After(n, steps).value.pc == Polling
    && Swap !in steps && OwnWake !in steps
  }

  /** In every reachable state, whatever other threads do: a call on the loop thread sees to it that the
      loop looks at its functor before it blocks, exactly when `loop()` is running. */
  lemma OwnQueueSafeIff(before: seq<Step>, f: Functor)
    requires After(INIT, before).Some? && Enabled(After(INIT, before).value, OwnQueue(f))
    ensures var s := After(INIT, before).value;
            (forall steps :: !PollsPast(Next(s, OwnQueue(f)), steps)) <==> s.pc != Outside
  {
    RunKeepsOrder(INIT, before);
    var s := After(INIT, before).value;
    var n := Next(s, OwnQueue(f));
    if s.pc == Outside {
      OutsideGoesToPoll(n);
      assert PollsPast(n, [Start, TestQuit]);
    } else {
      forall steps | After(n, steps).Some? && Swap !in steps && OwnWake !in steps
        ensures After(n, steps).value.pc != Polling
      {
        HeldFromPoll(n, steps);
      }
    }
  }

  lemma OutsideGoesToPoll(n: State)
    requires n.pc == Outside && !n.ownWaking
    ensures After(n, [Start, TestQuit]) == Some(n.(pc := Polling, quit := false))
  {
    AfterFirst(n, Start);
    AfterOne(n, [Start], Next(n, Start), TestQuit);
    assert [Start] + [TestQuit] == [Start, TestQuit];
  }

  /** The loop thread has a wakeup to write or a swap to make first. */
  predicate Held(s: State) {
    s.ownWaking || s.pc.Dispatching? || s.pc == Swapping
  }

  lemma {:induction false} HeldFromPoll(n: State, steps: seq<Step>)
    requires Held(n) && OrderInv(n)
    requires After(n, steps).Some? && Swap !in steps && OwnWake !in steps
    ensures Held(After(n, steps).value) && OrderInv(After(n, steps).value)
  {
    if steps != [] {
      var init, last := steps[..|steps| - 1], steps[|steps| - 1];
      HeldFromPoll(n, init);
      StepKeepsOrder(After(n, init).value, last);
      assert last in steps;
    }
  }

  predicate OwnStep(step: Step) {
    !step.OtherQueue? && !step.OtherQuit? && !step.OtherWake?
  }

  /** Left to itself, the loop thread enters poll with the functor still pending and nothing to end the
      wait but its timeout. */
  ghost predicate Unheard(n: State, steps: seq<Step>) {
    && After(n, steps).Some? && After(n, steps).value.pc == Polling && !WakeupComing(After(n, steps).value)
    && Swap !in steps && forall step :: step in steps ==> OwnStep(step)
  }

  /** In every reachable state the functor goes unheard exactly when it is queued while `loop()` is not
      running, the eventfd is not readable, and no thread is about to make it so. */
  lemma OwnQueueUnheardIff(before: seq<Step>, f: Functor)
    requires After(INIT, before).Some? && Enabled(After(INIT, before).value, OwnQueue(f))
    ensures var s := After(INIT, before).value;
            (exists steps :: Unheard(Next(s, OwnQueue(f)), steps))
            <==> s.pc == Outside && s.counter == 0 && s.waking == {}
  {
    RunKeepsOrder(INIT, before);
    var s := After(INIT, before).value;
    var n := Next(s, OwnQueue(f));
    if s.pc == Outside && s.counter == 0 && s.waking == {} {
      OutsideGoesToPoll(n);
      assert Unheard(n, [Start, TestQuit]);
    } else {
      forall steps | After(n, steps).Some? && Swap !in steps && forall step :: step in steps ==> OwnStep(step)
        ensures var m := After(n, steps).value; m.pc == Polling ==> WakeupComing(m)
      {
        HeardAnyway(n, steps);
      }
    }
  }

  lemma {:induction false} HeardAnyway(n: State, steps: seq<Step>)
    requires WakeupComing(n) || n.pc.Dispatching? || n.pc == Swapping
    requires After(n, steps).Some? && Swap !in steps && forall step :: step in steps ==> OwnStep(step)
    ensures var m := After(n, steps).value; WakeupComing(m) || m.pc.Dispatching? || m.pc == Swapping
  {
    if steps != [] {
      var init, last := steps[..|steps| - 1], steps[|steps| - 1];
      HeardAnyway(n, init);
      assert last in steps;
    }
  }

  /** For instance, one queued before anything else. */
  lemma QueueOutsideIsNotHeard(f: Functor)
    ensures var r := After(INIT, [OwnQueue(f), Start, TestQuit]);
            r.Some? && r.value.pc == Polling && r.value.pending == [f] && !WakeupComing(r.value)
  {
    var steps := [OwnQueue(f), Start, TestQuit];
    assert steps[..2] == [OwnQueue(f), Start] && steps[..2][..1] == [OwnQueue(f)] && steps[..2][..1][..0] == [];
    assert After(INIT, []) == Some(INIT);
    assert After(INIT, steps[..2][..1]) == Some(Next(INIT, OwnQueue(f)));
    assert After(INIT, steps[..2]) == Some(Next(Next(INIT, OwnQueue(f)), Start));
  }

  // ---------------------------------------------------------------------------------------------
  // The loop object

  class EventLoop {
    var pc: Pc
    var pending: seq<Functor>
    var counter: nat
    var calling: bool
    var quit: bool
    var waking: set<Thread>
    ghost var ownWaking: bool
    ghost var executed: seq<Functor>

    ghost function View(): (s: State)
      reads this
    {
      State(pc, pending, counter, calling, quit, waking, ownWaking, executed)
    }

    /** A functor is running. */
    ghost predicate Busy()
      reads this
    {
      pc.Calling? && calling && !ownWaking
    }

    /** The steps made from `s` lead here, and all that has been queued by them is pending. */
    ghost predicate Led(s: State, steps: seq<Step>)
      reads this
    {
      After(s, steps) == Some(View()) && pending == Queued(steps) && OrderInv(View()) && WakeInv(View())
    }

    constructor ()
      ensures View() == INIT && OrderInv(View()) && WakeInv(View())
    {
      pc, pending, counter, calling, quit := Outside, [], 0, false, false;
      waking, ownWaking, executed := {}, false, [];
    }

    /** queue_in_loop called on the loop's own thread: the locked append, then a wakeup if the functors
        are being called.  `before` is the run that led here from `s`. */
    method QueueOnLoopThread(ghost s: State, ghost before: seq<Step>, f: Functor) returns (ghost steps: seq<Step>)
      requires After(s, before) == Some(View()) && Enabled(View(), OwnQueue(f))
      modifies this
      ensures After(s, steps) == Some(View()) && !ownWaking && Queued(steps) == Queued(before) + [f]
      ensures pending == old(pending) + [f] && (calling || old(counter) > 0 ==> counter > 0)
      ensures pc == old(pc) && calling == old(calling) && executed == old(executed)
      ensures View() == if calling then Next(Next(old(View()), OwnQueue(f)), OwnWake) else Next(old(View()), OwnQueue(f))
    {
      AfterOne(s, before, View(), OwnQueue(f));
      QueuedOneMore(before, OwnQueue(f));
      steps := before + [OwnQueue(f)];
      pending := pending + [f];
      ownWaking := calling;
      if calling {
        AfterOne(s, steps, View(), OwnWake);
        QueuedOneMore(steps, OwnWake);
        steps := steps + [OwnWake];
        Wakeup();
        ownWaking := false;
      }
    }

    method Wakeup()
      modifies this`counter
      ensures counter == Write(old(counter)) && counter > 0
    {
      if counter < EVENTFD_MAX {
        counter := counter + 1;
      }
    }

    /** do_pending_functors: swap, then call one functor after the other.  `during(f)` is what the functor
        `f` itself, and other threads meanwhile, queue or do to stop the loop.  The functors swapped out
        are all called, in order; whatever anybody queues is left for the next pass, in order; and poll
        will not block on it. */
    method DoPendingFunctors(during: Functor -> seq<Step>) returns (ghost steps: seq<Step>)
      requires OrderInv(View()) && pc == Swapping
      modifies this
      ensures After(old(View()), steps) == Some(View()) && pc == AtTest
      ensures executed == old(executed) + old(pending)
      ensures pending == Queued(steps)
      ensures pending != [] ==> counter > 0 || waking != {}
    {
      ghost var s := View();
      AfterFirst(s, Swap);
      StepKeepsOrder(s, Swap);
      var functors := SwapPending();
      assert [Swap][..0] == [] && Queued([Swap]) == [];
      steps := CallAll(s, [Swap], during, functors);
      AfterOne(s, steps, View(), EndCalling);
      StepKeepsOrder(View(), EndCalling);
      StepKeepsWake(View(), EndCalling);
      QueuedOneMore(steps, EndCalling);
      steps := steps + [EndCalling];
      FinishCalling();
    }

    method SwapPending() returns (functors: seq<Functor>)
      requires OrderInv(View()) && pc == Swapping
      modifies this`pc, this`pending
      ensures View() == Next(old(View()), Swap)
      ensures functors == old(pending) && pending == [] && pc == Calling(functors) && calling && !ownWaking
    {
      functors := pending;
      pending := [];
      pc := Calling(functors);
    }

    method FinishCalling()
      requires pc == Calling([]) && !ownWaking
      modifies this`pc, this`calling
      ensures View() == Next(old(View()), EndCalling)
    {
      calling := false;
      pc := AtTest;
    }

    /** The calling loop. */
    method CallAll(ghost s: State, ghost before: seq<Step>, during: Functor -> seq<Step>, functors: seq<Functor>)
      returns (ghost steps: seq<Step>)
      requires Led(s, before) && Busy() && pc == Calling(functors)
      modifies this
      ensures Led(s, steps) && Busy() && pc == Calling([])
      ensures executed == old(executed) + functors
    {
      steps := before;
      var i := 0;
      while i < |functors|
        invariant 0 <= i <= |functors| && Busy() && Led(s, steps)
        invariant pc == Calling(functors[i..]) && executed == old(executed) + functors[..i]
        decreases |functors| - i
      {
        CutAt(functors, i);
        steps := CallOne(s, steps, during, functors[i]);
        i := i + 1;
      }
      assert functors[..i] == functors;
    }

    /** One turn of the calling loop. */
    method CallOne(ghost s: State, ghost before: seq<Step>, during: Functor -> seq<Step>, f: Functor)
      returns (ghost steps: seq<Step>)
      requires Led(s, before) && Busy() && pc.batch != [] && pc.batch[0] == f
      modifies this
      ensures Led(s, steps) && Busy()
      ensures pc == Calling(old(pc.batch)[1..]) && executed == old(executed) + [f]
    {
      AfterOne(s, before, View(), Call);
      StepKeepsOrder(View(), Call);
      StepKeepsWake(View(), Call);
      QueuedOneMore(before, Call);
      pc := Calling(pc.batch[1..]);
      executed := executed + [f];
      steps := before + [Call];
      var script := during(f);
      for i := 0 to |script|
        invariant Led(s, steps) && Busy()
        invariant pc == Calling(old(pc.batch)[1..]) && executed == old(executed) + [f]
      {
        steps := Meanwhile(s, steps, script[i]);
      }
    }

    /** Something the running functor or another thread does, if it is the time for it. */
    method Meanwhile(ghost s: State, ghost before: seq<Step>, step: Step) returns (ghost steps: seq<Step>)
      requires Led(s, before) && Busy()
      modifies this
      ensures Led(s, steps) && Busy() && pc == old(pc) && executed == old(executed)
    {
      match step {
        case OwnQueue(f) =>
          var v := QueuingKeepsOrder(View(), f);
          steps := QueueOnLoopThread(s, before, f);
        case OwnQuit =>
          steps := Quitting(s, before, step);
        case OtherQueue(t, _) =>
          if t in waking {
            return before;
          }
          steps := QueueOnOther(s, before, step);
        case OtherQuit(t) =>
          if t in waking {
            return before;
          }
          steps := Quitting(s, before, step);
        case OtherWake(t) =>
          if t !in waking {
            return before;
          }
          steps := WakeFromOther(s, before, t);
        case _ =>
          return before;
      }
    }

    /** queue_in_loop on another thread, up to its wakeup. */
    method QueueOnOther(ghost s: State, ghost before: seq<Step>, step: Step) returns (ghost steps: seq<Step>)
      requires Led(s, before) && Busy() && step.OtherQueue? && step.t !in waking
      modifies this
      ensures Led(s, steps) && View() == Next(old(View()), step)
    {
      AfterOne(s, before, View(), step);
      StepKeepsOrder(View(), step);
      StepKeepsWake(View(), step);
      QueuedOneMore(before, step);
      steps := before + [step];
      pending := pending + [step.f];
      waking := waking + {step.t};
    }

    /** The wakeup itself. */
    method WakeFromOther(ghost s: State, ghost before: seq<Step>, t: Thread) returns (ghost steps: seq<Step>)
      requires Led(s, before) && Busy() && t in waking
      modifies this
      ensures Led(s, steps) && View() == Next(old(View()), OtherWake(t))
    {
      AfterOne(s, before, View(), OtherWake(t));
      StepKeepsOrder(View(), OtherWake(t));
      StepKeepsWake(View(), OtherWake(t));
      QueuedOneMore(before, OtherWake(t));
      steps := before + [OtherWake(t)];
      Wakeup();
      waking := waking - {t};
    }

    /** quit(), up to its wakeup. */
    method Quitting(ghost s: State, ghost before: seq<Step>, step: Step) returns (ghost steps: seq<Step>)
      requires Led(s, before) && Busy() && IsQuit(step) && Enabled(View(), step)
      modifies this
      ensures Led(s, steps) && View() == Next(old(View()), step)
    {
      AfterOne(s, before, View(), step);
      StepKeepsOrder(View(), step);
      StepKeepsWake(View(), step);
      QueuedOneMore(before, step);
      steps := before + [step];
      quit := true;
      if step.OtherQuit? {
        waking := waking + {step.t};
      }
    }
  }

  lemma CutAt(fs: seq<Functor>, i: nat)
    requires i < |fs|
    ensures fs[i..] == [fs[i]] + fs[i + 1..] && fs[..i + 1] == fs[..i] + [fs[i]]
    ensures fs[i..][1..] == fs[i + 1..]
  {
  }

  lemma QueuedOneMore(steps: seq<Step>, step: Step)
    ensures Queued(steps + [step]) == Queued(steps) + Puts(step)
  {
    assert (steps + [step])[..|steps|] == steps;
  }

  /** A functor that queues another writes its wakeup before anything else happens on the loop thread. */
  lemma QueuingKeepsOrder(s: State, f: Functor) returns (n: State)
    requires OrderInv(s) && WakeInv(s) && s.pc.Calling? && !s.ownWaking
    ensures n == Next(Next(s, OwnQueue(f)), OwnWake) && OrderInv(n) && WakeInv(n)
  {
    StepKeepsOrder(s, OwnQueue(f));
    StepKeepsOrder(Next(s, OwnQueue(f)), OwnWake);
    n := Next(Next(s, OwnQueue(f)), OwnWake);
  }

  lemma AfterFirst(s: State, step: Step)
    requires Enabled(s, step)
    ensures After(s, [step]) == Some(Next(s, step))
  {
    assert [step][..0] == [];
  }

  lemma AfterOne(s: State, steps: seq<Step>, m: State, step: Step)
    requires After(s, steps) == Some(m) && Enabled(m, step)
    ensures After(s, steps + [step]) == Some(Next(m, step))
  {
    assert (steps + [step])[..|steps|] == steps;
  }
}
