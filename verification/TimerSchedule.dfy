/**
 What src/net/timer_queue.cpp promises each timer: its deadlines, the callbacks of a batch, and that a
 repeating timer is put back.
 */
module TimerSchedule {
  import opened Bytes
  import opened Timers
  import opened TimerCancellation

  // ---------------------------------------------------------------------------------------------
  // Deadlines

  /** When the timer with this number ran last. */
  function LastRun(runs: seq<Run>, k: nat): (now: Option<int>) {
    if runs == [] then None
    else if runs[|runs| - 1].sequence == k then Some(runs[|runs| - 1].now)
    else LastRun(runs[..|runs| - 1], k)
  }

  /** When it is to run next: when it was asked for, and after that its interval later than it last ran. */
  function Due(s: State, k: nat): (t: int)
    requires k in s.requests
  {
    var last := LastRun(s.runs, k);
    if last.None? then s.requests[k].when else last.value + Micros(s.requests[k].interval)
  }

  /** A timer still to run has the deadline it should have; one of the batch that is not, has just run. */
  predicate Timely(s: State, a: Addr)
    requires a in s.heap && s.heap[a].sequence in s.requests
    requires s.phase.Calling? ==> s.phase.called <= |s.phase.batch|
  {
    var k := s.heap[a].sequence;
    var e := Key(s.heap, a);
    && (a in s.adding || e in s.timers || e in Uncalled(s.phase) ==> s.heap[a].expiration == Due(s, k))
    && (e in Batch(s.phase) && e !in Uncalled(s.phase) ==> LastRun(s.runs, k) == Some(Now(s.phase)))
  }

  ghost predicate TimelyInv(s: State)
    requires OwnInv(s)
  {
    forall a {:trigger Known(s, a)} :: a in s.heap ==> Known(s, a) && Timely(s, a)
  }

  lemma RunOfStranger(runs: seq<Run>, r: Run, k: nat)
    requires r.sequence != k
    ensures LastRun(runs + [r], k) == LastRun(runs, k)
  {
    assert (runs + [r])[..|runs|] == runs;
  }

  lemma {:induction false} NeverRan(runs: seq<Run>, k: nat)
    requires forall i :: 0 <= i < |runs| ==> runs[i].sequence != k
    ensures LastRun(runs, k) == None
  {
    if runs != [] {
      NeverRan(runs[..|runs| - 1], k);
    }
  }

  lemma NewIsTimely(s: State, x: Addr, when: int, interval: real, k: nat, a: Addr)
    requires Timers.Inv(s) && TimelyInv(s) && Enabled(s, NewTimer(x, when, interval, k))
    requires OwnInv(NewTimerState(s, x, when, interval, k)) && a in NewTimerState(s, x, when, interval, k).heap
    ensures Known(NewTimerState(s, x, when, interval, k), a) && Timely(NewTimerState(s, x, when, interval, k), a)
  {
    var r := NewTimerState(s, x, when, interval, k);
    assert Known(r, a);
    if a == x {
      forall i | 0 <= i < |s.runs|
        ensures s.runs[i].sequence != k
      {
        assert RunUncancelled(s, i);
      }
      NeverRan(s.runs, k);
      assert OwnedOnce(r, a);
    } else {
      assert Known(s, a) && Timely(s, a);
    }
  }

  lemma AddIsTimely(s: State, x: Addr, clock: int, a: Addr)
    requires Timers.Inv(s) && TimelyInv(s) && Enabled(s, AddStep(x, clock))
    requires OwnInv(AddInLoop(s, x, clock)) && a in s.heap
    ensures a in AddInLoop(s, x, clock).heap && Known(AddInLoop(s, x, clock), a) && Timely(AddInLoop(s, x, clock), a)
  {
    var r := AddInLoop(s, x, clock);
    assert Known(s, a) && Timely(s, a) && Known(s, x) && Timely(s, x);
    TakenIsLoose(s, x);
    InsertMembers(s.timers, Key(s.heap, x));
    assert Known(r, a);
  }

  lemma CancelIsTimely(s: State, id: TimerId, a: Addr)
    requires Timers.Inv(s) && TimelyInv(s) && Enabled(s, CancelStep(id))
    requires OwnInv(CancelInLoop(s, id)) && a in CancelInLoop(s, id).heap
    ensures Known(CancelInLoop(s, id), a) && Timely(CancelInLoop(s, id), a)
  {
    CancelIs(s, id);
    assert Known(s, a) && Timely(s, a) && Known(CancelInLoop(s, id), a);
    if id in s.active {
      EraseMembers(s.timers, Key(s.heap, id.addr));
    }
  }

  lemma BeginIsTimely(s: State, now: int, fired: bool, a: Addr)
    requires Timers.Inv(s) && TimelyInv(s) && Enabled(s, BeginStep(now, fired))
    requires OwnInv(Begin(s, now, fired)) && a in s.heap
    ensures a in Begin(s, now, fired).heap && Known(Begin(s, now, fired), a) && Timely(Begin(s, now, fired), a)
  {
    var r := Begin(s, now, fired);
    BeginIs(s, now, fired);
    assert Known(s, a) && Timely(s, a) && Known(r, a);
    SplitMembers(s.timers, LowerBound(s.timers, Entry(now, ADDR_MAX)));
    assert Uncalled(r.phase) == r.phase.batch;
  }

  lemma RunIsTimely(s: State, a: Addr)
    requires Timers.Inv(s) && TimelyInv(s) && Enabled(s, RunStep) && OwnInv(RunNext(s)) && a in s.heap
    ensures a in RunNext(s).heap && Known(RunNext(s), a) && Timely(RunNext(s), a)
  {
    var e := s.phase.batch[s.phase.called];
    RunEffect(s);
    UncalledSplit(s.phase);
    assert Known(RunNext(s), a);
    if a == e.addr {
      CalledIsTimely(s);
    } else {
      OtherIsTimely(s, a);
    }
  }

  lemma CalledIsTimely(s: State)
    requires OwnInv(s) && Enabled(s, RunStep) && OwnInv(RunNext(s))
    ensures var r := RunNext(s);
            var a := s.phase.batch[s.phase.called].addr;
            a in r.heap && r.heap[a].sequence in r.requests && Timely(r, a)
  {
    var e := s.phase.batch[s.phase.called];
    var r := RunNext(s);
    RunEffect(s);
    UncalledSplit(s.phase);
    assert Current(s, e) && OwnedOnce(s, e.addr) && Known(r, e.addr);
    assert Key(r.heap, e.addr) == e && r.runs[|r.runs| - 1].now == Now(r.phase);
  }

  lemma OtherIsTimely(s: State, a: Addr)
    requires OwnInv(s) && TimelyInv(s) && Enabled(s, RunStep) && OwnInv(RunNext(s))
    requires a in s.heap && a != s.phase.batch[s.phase.called].addr
    ensures var r := RunNext(s); a in r.heap && r.heap[a].sequence in r.requests && Timely(r, a)
  {
    var e := s.phase.batch[s.phase.called];
    var r := RunNext(s);
    RunEffect(s);
    UncalledSplit(s.phase);
    assert Current(s, e) && Known(s, e.addr) && Known(s, a) && Timely(s, a);
    RunOfStranger(s.runs, r.runs[|r.runs| - 1], s.heap[a].sequence);
    assert Key(s.heap, a) != e;
  }

  lemma ResetIsTimely(s: State, a: Addr)
    requires Timers.Inv(s) && TimelyInv(s) && Enabled(s, ResetStep) && OwnInv(ResetNext(s)) && a in ResetNext(s).heap
    ensures Known(ResetNext(s), a) && Timely(ResetNext(s), a)
  {
    var e := s.phase.rest[0];
    var r := ResetNext(s);
    assert Current(s, e) && Known(s, e.addr) && Timely(s, e.addr) && Known(r, a);
    SortedTail(s.phase.rest);
    ResetRecord(s);
    ResetFrame(s);
    if a != e.addr {
      assert Known(s, a) && Timely(s, a);
      assert Key(s.heap, a) != e;
    }
  }

  /** What one turn of reset's loop does to both its timer and the others. */
  lemma ResetFrame(s: State)
    requires OwnInv(s) && Enabled(s, ResetStep)
    ensures var r := ResetNext(s);
            var e := s.phase.rest[0];
            && e.addr in s.heap
            && r.adding == s.adding && r.requests == s.requests && r.runs == s.runs
            && r.phase == s.phase.(rest := s.phase.rest[1..])
            && (if Restarts(s, e.addr) then
                  && r.heap == s.heap[e.addr := s.heap[e.addr].(expiration := s.phase.now + s.heap[e.addr].Period())]
                  && (forall d :: d in r.timers <==> d == Key(r.heap, e.addr) || d in s.timers)
                  && IdOf(s.heap, e.addr) in r.active
                else r.heap == s.heap - {e.addr} && r.timers == s.timers && r.active == s.active)
  {
    var e := s.phase.rest[0];
    assert Current(s, e);
    if Restarts(s, e.addr) {
      var t := s.heap[e.addr].(expiration := s.phase.now + s.heap[e.addr].Period());
      PoppedIsLoose(s, t);
      InsertMembers(s.timers, Key(Popped(s, t).heap, e.addr));
      assert ResetNext(s) == Insert(Popped(s, t), e.addr);
    }
  }

  lemma StepIsTimely(s: State, step: Step)
    requires Timers.Inv(s) && TimelyInv(s) && Enabled(s, step) && OwnInv(Next(s, step))
    ensures TimelyInv(Next(s, step))
  {
    var r := Next(s, step);
    forall a | a in r.heap
      ensures Known(r, a) && Timely(r, a)
    {
      match step
      case NewTimer(x, when, interval, k) => NewIsTimely(s, x, when, interval, k, a);
      case AddStep(x, clock) => AddIsTimely(s, x, clock, a);
      case CancelStep(id) => CancelIsTimely(s, id, a);
      case BeginStep(now, fired) => BeginIsTimely(s, now, fired, a);
      case RunStep => RunIsTimely(s, a);
      case ResetStep => ResetIsTimely(s, a);
      case EndCalls => assert Known(s, a) && Timely(s, a) && Known(r, a);
      case RearmStep(_) => assert Known(s, a) && Timely(s, a) && Known(r, a);
    }
  }

  lemma {:induction false} ReachableIsTimely(steps: seq<Step>)
    requires After(INIT, steps).Some?
    ensures Timers.Inv(After(INIT, steps).value) && TimelyInv(After(INIT, steps).value)
  {
    Reachable(steps);
    if steps != [] {
      var init := steps[..|steps| - 1];
      ReachableIsTimely(init);
      StepIsTimely(After(INIT, init).value, steps[|steps| - 1]);
    }
  }

  /** In every run, a timer that is still to run has for its deadline the time it was asked for, and once
      it has run the time of the batch it last ran in plus its interval in whole microseconds. */
  lemma DeadlinesAreExact(steps: seq<Step>, a: Addr)
    requires After(INIT, steps).Some? && a in After(INIT, steps).value.heap
    ensures var s := After(INIT, steps).value;
            var k := s.heap[a].sequence;
            && k in s.requests
            && (a in s.adding || Key(s.heap, a) in s.timers ==> s.heap[a].expiration == Due(s, k))
  {
    ReachableIsTimely(steps);
    assert Known(After(INIT, steps).value, a);
  }

  // ---------------------------------------------------------------------------------------------
  // The callbacks of a batch

  /** The run of the batch's entry number `i`, counted back from the latest. */
  predicate CalledAt(s: State, i: nat)
    requires s.phase.Calling? && i < s.phase.called <= |s.runs| && s.phase.called <= |s.phase.batch|
  {
    var e := s.phase.batch[i];
    e.addr in s.heap && s.runs[|s.runs| - s.phase.called + i] == Run(s.heap[e.addr].sequence, s.phase.now, s.batches)
  }

  /** The latest runs are those of the batch's called part, in order. */
  ghost predicate CalledSoFar(s: State) {
    s.phase.Calling? ==>
      && s.phase.called <= |s.runs| && s.phase.called <= |s.phase.batch|
      && forall i: nat {:trigger CalledAt(s, i)} :: i < s.phase.called ==> CalledAt(s, i)
  }

  lemma StepKeepsCalled(s: State, step: Step)
    requires OwnInv(s) && CalledSoFar(s) && Enabled(s, step)
    ensures CalledSoFar(Next(s, step))
  {
    if step.AddStep? {
      RunsUnchanged(s, step);
      TakenIsLoose(s, step.addr);
      SameHeapKeepsCalled(s, Next(s, step));
    } else if step.CancelStep? {
      CancelKeepsCalled(s, step.id);
    } else if step.RunStep? {
      RunKeepsCalled(s);
    } else if step.NewTimer? {
      SameHeapKeepsCalled(s, Next(s, step));
    }
  }

  /** As long as the batch's timers and the record of runs stay. */
  lemma SameHeapKeepsCalled(s: State, r: State)
    requires OwnInv(s) && CalledSoFar(s) && r.phase == s.phase && r.runs == s.runs && r.batches == s.batches
    requires forall e :: e in Batch(s.phase) && e.addr in s.heap ==> e.addr in r.heap && r.heap[e.addr] == s.heap[e.addr]
    ensures CalledSoFar(r)
  {
    if s.phase.Calling? {
      forall i: nat | i < r.phase.called
        ensures CalledAt(r, i)
      {
        assert CalledAt(s, i) && s.phase.batch[i] in Batch(s.phase);
      }
    }
  }

  lemma RunKeepsCalled(s: State)
    requires OwnInv(s) && CalledSoFar(s) && Enabled(s, RunStep)
    ensures CalledSoFar(RunNext(s))
  {
    RunEffect(s);
    var r := RunNext(s);
    forall i: nat | i < r.phase.called
      ensures CalledAt(r, i)
    {
      if i < s.phase.called {
        assert CalledAt(s, i);
      }
    }
  }

  lemma CancelKeepsCalled(s: State, id: TimerId)
    requires OwnInv(s) && CalledSoFar(s)
    ensures CalledSoFar(CancelInLoop(s, id))
  {
    CancelIs(s, id);
    CancelKeepsRuns(s, id);
    forall e | e in Batch(s.phase)
      ensures id in s.active ==> e.addr != id.addr
    {
      assert Current(s, e);
      if id in s.active {
        assert OwnedOnce(s, id.addr);
      }
    }
    SameHeapKeepsCalled(s, CancelInLoop(s, id));
  }

  lemma {:induction false} ReachableCalled(steps: seq<Step>)
    requires After(INIT, steps).Some?
    ensures OwnInv(After(INIT, steps).value) && CalledSoFar(After(INIT, steps).value)
  {
    Reachable(steps);
    if steps != [] {
      var init := steps[..|steps| - 1];
      ReachableCalled(init);
      StepKeepsCalled(After(INIT, init).value, steps[|steps| - 1]);
    }
  }

  /** Of the latest runs, as many as the batch has timers, the one at place `i` is of its timer `i`. */
  predicate WasCalled(s: State, batch: seq<Entry>, now: int, i: nat)
    requires i < |batch|
  {
    && |batch| <= |s.runs| && batch[i].addr in s.heap
    && s.runs[|s.runs| - |batch| + i] == Run(s.heap[batch[i].addr].sequence, now, s.batches)
  }

  /** In every run, when the callbacks of a batch are done, the latest runs are those of its timers, each
      once and in deadline order, whatever the callbacks have added and cancelled. */
  lemma BatchIsCalledInOrder(steps: seq<Step>, batch: seq<Entry>, now: int, i: nat)
    requires After(INIT, steps).Some? && After(INIT, steps).value.phase == Calling(batch, |batch|, now)
    requires i < |batch|
    ensures Sorted(batch) && WasCalled(After(INIT, steps).value, batch, now, i)
  {
    ReachableCalled(steps);
    CalledInFull(After(INIT, steps).value, batch, now, i);
  }

  lemma CalledInFull(s: State, batch: seq<Entry>, now: int, i: nat)
    requires OwnInv(s) && CalledSoFar(s) && s.phase == Calling(batch, |batch|, now) && i < |batch|
    ensures Sorted(batch) && WasCalled(s, batch, now, i)
  {
    assert CalledAt(s, i) && Batch(s.phase) == batch;
  }

  // ---------------------------------------------------------------------------------------------
  // Being put back

  /** In every reachable state, a turn of reset's loop puts its timer back, live and in both indexes, with
      the batch time plus the interval asked for as its deadline, exactly when it repeats and has not been
      cancelled; any other timer it frees. */
  lemma RestartedIff(steps: seq<Step>)
    requires After(INIT, steps).Some? && Enabled(After(INIT, steps).value, ResetStep)
    ensures var s := After(INIT, steps).value;
            var a := s.phase.rest[0].addr;
            && a in s.heap && s.heap[a].sequence in s.requests
            && var k := s.heap[a].sequence;
               var interval := s.requests[k].interval;
               var r := Next(s, ResetStep);
               if interval > 0.0 && k !in s.cancelled then
                 && a in r.heap && r.heap[a].sequence == k
                 && r.heap[a].expiration == s.phase.now + (interval * 1000000.0).Floor
                 && Key(r.heap, a) in r.timers && TimerId(a, k) in r.active
               else a !in r.heap
  {
    Reachable(steps);
    var s := After(INIT, steps).value;
    var e := s.phase.rest[0];
    assert Current(s, e) && Known(s, e.addr) && Marked(s, e.addr);
    ResetFrame(s);
  }

  /** Waiting in the batch to be put back. */
  predicate WillRestart(s: State, a: Addr, k: nat) {
    a in s.heap && s.heap[a].sequence == k && Key(s.heap, a) in Batch(s.phase) && Restarts(s, a)
  }

  lemma {:induction false} RestartAfterCallbacks(s: State, before: seq<Step>, m: State, a: Addr, k: nat)
    returns (steps: seq<Step>, n: State)
    requires Leads(s, before, m) && WillRestart(m, a, k) && m.phase.Calling?
    ensures Leads(s, steps, n) && WillRestart(n, a, k) && n.phase.Resetting? && n.batches == m.batches
    decreases |m.phase.batch| - m.phase.called
  {
    if m.phase.called == |m.phase.batch| {
      steps, n := LeadsOn(s, before, m, EndCalls);
    } else {
      RunEffect(m);
      steps, n := LeadsOn(s, before, m, RunStep);
      steps, n := RestartAfterCallbacks(s, steps, n, a, k);
    }
  }

  lemma {:induction false} RestartInReset(s: State, before: seq<Step>, m: State, a: Addr, k: nat)
    returns (steps: seq<Step>, n: State, t: Timer)
    requires Leads(s, before, m) && WillRestart(m, a, k) && m.phase.Resetting?
    ensures Leads(s, steps, n) && Waits(n, a, t) && t.sequence == k && n.phase.Resetting? && n.batches == m.batches
    decreases |m.phase.rest|
  {
    var e := m.phase.rest[0];
    SortedTail(m.phase.rest);
    ResetFrame(m);
    ResetKeepsBatches(m);
    steps, n := LeadsOn(s, before, m, ResetStep);
    if e.addr == a {
      t := n.heap[a];
    } else {
      steps, n, t := RestartInReset(s, steps, n, a, k);
    }
  }

  lemma ResetKeepsBatches(s: State)
    requires OwnInv(s) && Enabled(s, ResetStep)
    ensures ResetNext(s).batches == s.batches && ResetNext(s).canceling == s.canceling
  {
    assert Current(s, s.phase.rest[0]);
  }

  /** A timer in the index, or one of the batch that will be put back, can run again. */
  lemma RunsAgain(s: State, a: Addr, k: nat) returns (more: seq<Step>)
    requires OwnInv(s) && a in s.heap && s.heap[a].sequence == k
    requires Key(s.heap, a) in s.timers || WillRestart(s, a, k)
    ensures RunsLater(s, k, s.batches, more)
  {
    var n, t := s, s.heap[a];
    more := [];
    if Key(s.heap, a) in s.timers {
      if n.phase.Calling? {
        more, n := EndCallbacks(s, more, n, a, t);
      }
    } else {
      if n.phase.Calling? {
        more, n := RestartAfterCallbacks(s, more, n, a, k);
      }
      more, n, t := RestartInReset(s, more, n, a, k);
    }
    if n.phase.Resetting? {
      more, n := EndReset(s, more, n, a, t);
    }
    more, n := DueRuns(s, more, n, a, t);
  }

  /** The timer with number `k` is gone, or is a one-shot of the batch `b`. */
  predicate Spent(s: State, k: nat, b: nat) {
    && k in s.births && s.batches >= b
    && (Live(s, k) ==>
          var a := s.births[k].addr;
          s.batches == b && Key(s.heap, a) in Batch(s.phase) && !s.heap[a].Repeat())
  }

  ghost predicate NoLaterRun(s: State, k: nat, b: nat) {
    forall i :: 0 <= i < |s.runs| && s.runs[i].sequence == k ==> s.runs[i].batch <= b
  }

  lemma StepKeepsSpent(s: State, step: Step, k: nat, b: nat)
    requires OwnInv(s) && Spent(s, k, b) && NoLaterRun(s, k, b) && Enabled(s, step)
    ensures OwnInv(Next(s, step)) && Spent(Next(s, step), k, b) && NoLaterRun(Next(s, step), k, b)
  {
    StepKeepsOwn(s, step);
    match step
    case NewTimer(_, _, _, _) =>
    case AddStep(a, clock) =>
      RunsUnchanged(s, step);
      TakenIsLoose(s, a);
    case CancelStep(id) => CancelKeepsSpent(s, id, k, b);
    case BeginStep(now, fired) => BeginIs(s, now, fired);
    case RunStep =>
      RunEffect(s);
      var e := s.phase.batch[s.phase.called];
      assert Current(s, e) && Known(s, e.addr);
    case ResetStep => ResetKeepsSpent(s, k, b);
    case _ =>
  }

  lemma CancelKeepsSpent(s: State, id: TimerId, k: nat, b: nat)
    requires OwnInv(s) && Spent(s, k, b) && NoLaterRun(s, k, b)
    ensures Spent(CancelInLoop(s, id), k, b) && NoLaterRun(CancelInLoop(s, id), k, b)
  {
    CancelIs(s, id);
    CancelKeepsRuns(s, id);
    if id in s.active {
      assert OwnedOnce(s, id.addr);
    }
  }

  lemma ResetKeepsSpent(s: State, k: nat, b: nat)
    requires OwnInv(s) && Spent(s, k, b) && NoLaterRun(s, k, b) && Enabled(s, ResetStep)
    ensures Spent(ResetNext(s), k, b) && NoLaterRun(ResetNext(s), k, b)
  {
    var e := s.phase.rest[0];
    assert Current(s, e) && Known(s, e.addr);
    SortedTail(s.phase.rest);
    ResetRecord(s);
    ResetFrame(s);
    ResetKeepsBatches(s);
  }

  lemma {:induction false} RunKeepsSpent(s: State, more: seq<Step>, k: nat, b: nat)
    requires OwnInv(s) && Spent(s, k, b) && NoLaterRun(s, k, b) && After(s, more).Some?
    ensures OwnInv(After(s, more).value) && Spent(After(s, more).value, k, b) && NoLaterRun(After(s, more).value, k, b)
  {
    if more != [] {
      var init := more[..|more| - 1];
      RunKeepsSpent(s, init, k, b);
      StepKeepsSpent(After(s, init).value, more[|more| - 1], k, b);
    }
  }

  lemma CancelledStaysOut(steps: seq<Step>, k: nat, more: seq<Step>)
    requires After(INIT, steps).Some?
    requires var s := After(INIT, steps).value; k in s.cancelled && s.cancelled[k] == s.batches
    ensures var s := After(INIT, steps).value; !RunsLater(s, k, s.batches, more)
  {
    var s := After(INIT, steps).value;
    if After(s, more).Some? {
      AfterAppend(INIT, steps, more);
      RunKeepsCancelled(s, more, k);
      forall i | 0 <= i < |After(s, more).value.runs| && After(s, more).value.runs[i].sequence == k
        ensures After(s, more).value.runs[i].batch <= s.batches
      {
        CancelledNeverRunsLater(steps + more, i);
      }
    }
  }

  /** In every reachable state, a live timer whose addition has run can run in a later batch exactly when
      it waits in the index, or is in the batch, repeats, and has not been cancelled. */
  lemma RunsAgainIff(steps: seq<Step>, a: Addr)
    requires After(INIT, steps).Some?
    requires a in After(INIT, steps).value.heap && a !in After(INIT, steps).value.adding
    ensures var s := After(INIT, steps).value;
            var k := s.heap[a].sequence;
            && k in s.requests
            && ((exists more :: RunsLater(s, k, s.batches, more)) <==>
                Key(s.heap, a) in s.timers || (s.requests[k].interval > 0.0 && k !in s.cancelled))
  {
    Reachable(steps);
    var s := After(INIT, steps).value;
    var k := s.heap[a].sequence;
    assert OwnedOnce(s, a) && Known(s, a) && Marked(s, a);
    if Key(s.heap, a) in s.timers || (s.requests[k].interval > 0.0 && k !in s.cancelled) {
      var more := RunsAgain(s, a, k);
    } else {
      forall i | 0 <= i < |s.runs| && s.runs[i].sequence == k
        ensures s.runs[i].batch <= s.batches
      {
        assert RunUncancelled(s, i);
      }
      forall more
        ensures !RunsLater(s, k, s.batches, more)
      {
        if k in s.cancelled {
          CancelledStaysOut(steps, k, more);
        } else if After(s, more).Some? {
          RunKeepsSpent(s, more, k, s.batches);
        }
      }
    }
  }
}
