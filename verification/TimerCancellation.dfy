/**
 When a cancellation in src/net/timer_queue.cpp counts: exactly when the timer's add_timer_in_loop has
 run.  One that comes earlier is forgotten, and the timer can still run.
 */
module TimerCancellation {
  import opened Bytes
  import opened Timers

  lemma AfterAppend(s: State, a: seq<Step>, b: seq<Step>)
    requires After(s, a).Some?
    ensures After(s, a + b) == After(After(s, a).value, b)
    decreases |b|
  {
    if b == [] {
      assert a + b == a;
    } else {
      var init := b[..|b| - 1];
      assert (a + b)[..|a + b| - 1] == a + init && (a + b)[|a + b| - 1] == b[|b| - 1];
      AfterAppend(s, a, init);
    }
  }

  /** Timer number `k` runs in a batch after batch `b`. */
  ghost predicate RunsLater(s: State, k: nat, b: nat, more: seq<Step>) {
    After(s, more).Some? &&
    exists i :: 0 <= i < |After(s, more).value.runs| &&
      After(s, more).value.runs[i].sequence == k && After(s, more).value.runs[i].batch > b
  }

  // ---------------------------------------------------------------------------------------------
  // A cancel that counts

  lemma StepKeepsCancelled(s: State, step: Step, k: nat)
    requires Enabled(s, step) && k in s.cancelled
    ensures k in Next(s, step).cancelled && Next(s, step).cancelled[k] == s.cancelled[k]
  {
    if step.CancelStep? {
      CancelKeepsRuns(s, step.id);
    } else if !step.RunStep? {
      RunsUnchanged(s, step);
    }
  }

  lemma {:induction false} RunKeepsCancelled(s: State, more: seq<Step>, k: nat)
    requires After(s, more).Some? && k in s.cancelled
    ensures var r := After(s, more).value; k in r.cancelled && r.cancelled[k] == s.cancelled[k]
  {
    if more != [] {
      var init := more[..|more| - 1];
      RunKeepsCancelled(s, init, k);
      StepKeepsCancelled(After(s, init).value, more[|more| - 1], k);
    }
  }

  lemma CancelPrevents(steps: seq<Step>, a: Addr, more: seq<Step>)
    requires After(INIT, steps).Some? && !After(INIT, steps).value.phase.Resetting?
    requires var s := After(INIT, steps).value; a in s.heap && a !in s.adding
    ensures var s := After(INIT, steps).value;
            !RunsLater(CancelInLoop(s, IdOf(s.heap, a)), s.heap[a].sequence, s.batches, more)
  {
    var s := After(INIT, steps).value;
    var k := s.heap[a].sequence;
    var r := CancelInLoop(s, IdOf(s.heap, a));
    CancelIsRemembered(steps, a);
    if After(r, more).Some? {
      var cancel := CancelStep(IdOf(s.heap, a));
      AfterOne(INIT, steps, s, cancel);
      AfterAppend(INIT, steps + [cancel], more);
      RunKeepsCancelled(r, more, k);
      forall i | 0 <= i < |After(r, more).value.runs| && After(r, more).value.runs[i].sequence == k
        ensures After(r, more).value.runs[i].batch <= s.batches
      {
        CancelledNeverRunsLater(steps + [cancel] + more, i);
      }
    }
  }

  // ---------------------------------------------------------------------------------------------
  // A cancel that is forgotten

  ghost predicate Leads(s: State, steps: seq<Step>, m: State) {
    After(s, steps) == Some(m) && OwnInv(m)
  }

  lemma LeadsOn(s: State, before: seq<Step>, m: State, step: Step) returns (steps: seq<Step>, n: State)
    requires Leads(s, before, m) && Enabled(m, step)
    ensures n == Next(m, step) && Leads(s, steps, n)
  {
    steps, n := before + [step], Next(m, step);
    AfterOne(s, before, m, step);
    StepKeepsOwn(m, step);
  }

  /** The timer at `a` is in the ordered index. */
  predicate Waits(s: State, a: Addr, t: Timer) {
    a in s.heap && s.heap[a] == t && Key(s.heap, a) in s.timers
  }

  lemma AddingWaits(s: State, a: Addr)
    requires OwnInv(s) && Enabled(s, AddStep(a, 0))
    ensures a in s.heap && Waits(Next(s, AddStep(a, 0)), a, s.heap[a])
    ensures Next(s, AddStep(a, 0)).batches == s.batches && Next(s, AddStep(a, 0)).phase == s.phase
  {
    TakenIsLoose(s, a);
    InsertMembers(s.timers, Key(s.heap, a));
  }

  lemma ResetKeepsWaiting(s: State, a: Addr, t: Timer)
    requires OwnInv(s) && Enabled(s, ResetStep) && Waits(s, a, t)
    ensures var r := Next(s, ResetStep);
            && Waits(r, a, t) && r.batches == s.batches
            && r.phase == s.phase.(rest := s.phase.rest[1..])
  {
    var e := s.phase.rest[0];
    assert Current(s, e) && OwnedOnce(s, a);
    var u := s.heap[e.addr];
    if u.Repeat() && IdOf(s.heap, e.addr) !in s.canceling {
      var u' := u.(expiration := s.phase.now + u.Period());
      PoppedIsLoose(s, u');
      InsertMembers(s.timers, Key(Popped(s, u').heap, e.addr));
    }
  }

  lemma RunEffect(s: State)
    requires OwnInv(s) && Enabled(s, RunStep)
    ensures var r := Next(s, RunStep);
            var e := s.phase.batch[s.phase.called];
            && e.addr in s.heap && r.heap == s.heap && r.timers == s.timers && r.batches == s.batches
            && r.phase == s.phase.(called := s.phase.called + 1)
            && r.runs == s.runs + [Run(s.heap[e.addr].sequence, s.phase.now, s.batches)]
  {
    assert Current(s, s.phase.batch[s.phase.called]);
  }

  /** The callbacks still to come do nothing to the queue. */
  lemma {:induction false} EndCallbacks(s: State, before: seq<Step>, m: State, a: Addr, t: Timer)
    returns (steps: seq<Step>, n: State)
    requires Leads(s, before, m) && Waits(m, a, t) && m.phase.Calling?
    ensures Leads(s, steps, n) && Waits(n, a, t) && n.phase.Resetting? && n.batches == m.batches
    decreases |m.phase.batch| - m.phase.called
  {
    if m.phase.called == |m.phase.batch| {
      steps, n := LeadsOn(s, before, m, EndCalls);
    } else {
      RunEffect(m);
      steps, n := LeadsOn(s, before, m, RunStep);
      steps, n := EndCallbacks(s, steps, n, a, t);
    }
  }

  lemma {:induction false} EndReset(s: State, before: seq<Step>, m: State, a: Addr, t: Timer)
    returns (steps: seq<Step>, n: State)
    requires Leads(s, before, m) && Waits(m, a, t) && m.phase.Resetting?
    ensures Leads(s, steps, n) && Waits(n, a, t) && n.phase == Idle && n.batches == m.batches
    decreases |m.phase.rest|
  {
    if m.phase.rest == [] {
      steps, n := LeadsOn(s, before, m, RearmStep(0));
    } else {
      ResetKeepsWaiting(m, a, t);
      steps, n := LeadsOn(s, before, m, ResetStep);
      steps, n := EndReset(s, steps, n, a, t);
    }
  }

  /** The callbacks of a batch come to entry number `i`. */
  lemma {:induction false} CallUpTo(s: State, before: seq<Step>, m: State, a: Addr, i: nat)
    returns (steps: seq<Step>, n: State)
    requires Leads(s, before, m) && m.phase.Calling? && m.phase.called <= i < |m.phase.batch|
    requires m.phase.batch[i].addr == a && a in m.heap
    ensures Leads(s, steps, n) && n.runs != [] && n.runs[|n.runs| - 1].sequence == m.heap[a].sequence
    ensures n.runs[|n.runs| - 1].batch == m.batches
    decreases i - m.phase.called
  {
    RunEffect(m);
    steps, n := LeadsOn(s, before, m, RunStep);
    if m.phase.called < i {
      steps, n := CallUpTo(s, steps, n, a, i);
    }
  }

  /** A new batch, at a time when the timer is due, has it. */
  lemma DueIsTaken(m: State, a: Addr, now: int) returns (i: nat)
    requires OwnInv(m) && a in m.heap && Key(m.heap, a) in m.timers && m.heap[a].expiration <= now
    ensures var r := Begin(m, now, true);
            && r.phase.Calling? && r.phase.called == 0 && r.heap == m.heap && r.batches == m.batches + 1
            && i < |r.phase.batch| && r.phase.batch[i] == Key(m.heap, a)
  {
    var e := Key(m.heap, a);
    BeginIs(m, now, true);
    forall d | d in m.timers
      ensures d.addr < ADDR_MAX
    {
      assert Current(m, d) && Known(m, d.addr);
    }
    ExpiredIsPrefix(m.timers, now);
    var k := LowerBound(m.timers, Entry(now, ADDR_MAX));
    assert e in m.timers[..k];
    i :| 0 <= i < k && m.timers[..k][i] == e;
  }

  /** And runs it. */
  lemma DueRuns(s: State, before: seq<Step>, m: State, a: Addr, t: Timer) returns (steps: seq<Step>, n: State)
    requires Leads(s, before, m) && Waits(m, a, t) && m.phase == Idle
    ensures Leads(s, steps, n) && n.runs != [] && n.runs[|n.runs| - 1].sequence == t.sequence
    ensures n.runs[|n.runs| - 1].batch == m.batches + 1
  {
    var now := if t.expiration > 0 then t.expiration else 1;
    var i := DueIsTaken(m, a, now);
    steps, n := LeadsOn(s, before, m, BeginStep(now, true));
    steps, n := CallUpTo(s, steps, n, a, i);
  }

  lemma EarlyCancelIsForgotten(r: State, a: Addr) returns (more: seq<Step>)
    requires OwnInv(r) && a in r.heap && a in r.adding && !r.phase.Resetting?
    ensures RunsLater(r, r.heap[a].sequence, r.batches, more)
  {
    var t := r.heap[a];
    var n := r;
    more := [];
    AddingWaits(r, a);
    more, n := LeadsOn(r, more, n, AddStep(a, 0));
    if n.phase.Calling? {
      more, n := EndCallbacks(r, more, n, a, t);
      more, n := EndReset(r, more, n, a, t);
    }
    more, n := DueRuns(r, more, n, a, t);
  }

  // ---------------------------------------------------------------------------------------------

  /** In every reachable state, a cancel of a live timer, whoever makes it, keeps the timer out of all
      later batches exactly when its add_timer_in_loop has run. */
  lemma CancelPreventsIff(steps: seq<Step>, a: Addr)
    requires After(INIT, steps).Some? && !After(INIT, steps).value.phase.Resetting?
    requires a in After(INIT, steps).value.heap
    ensures var s := After(INIT, steps).value;
            var r := CancelInLoop(s, IdOf(s.heap, a));
            (forall more :: !RunsLater(r, s.heap[a].sequence, s.batches, more)) <==> a !in s.adding
  {
    var s := After(INIT, steps).value;
    Reachable(steps);
    if a in s.adding {
      assert OwnedOnce(s, a);
      CancelIs(s, IdOf(s.heap, a));
      CancelKeepsOwn(s, IdOf(s.heap, a));
      var more := EarlyCancelIsForgotten(CancelInLoop(s, IdOf(s.heap, a)), a);
    } else {
      forall more
        ensures !RunsLater(CancelInLoop(s, IdOf(s.heap, a)), s.heap[a].sequence, s.batches, more)
      {
        CancelPrevents(steps, a, more);
      }
    }
  }
}
