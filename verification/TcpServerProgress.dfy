/**
 What the loops of src/net/tcp_server.cpp can always still do: from any reachable state, with nothing but
 steps of the loops themselves, a functor that waits is called, and so a teardown that has begun is
 finished.
 */
module TcpServerProgress {
  import opened Bytes
  import opened TcpConnections
  import opened TcpServers

  /** A step of a loop thread that needs nothing from outside. */
  predicate LoopStep(step: Step) {
    || step.PollReturn? || step.HandleStep? || step.CallbackStep? || step.HandledStep?
    || step.SwapStep? || step.FunctorStep? || step.BatchDone?
  }

  /** Loop steps lead from `s` to `m`. */
  ghost predicate Leads(s: State, steps: seq<Step>, m: State) {
    && After(s, steps) == Some(m) && (forall step :: step in steps ==> LoopStep(step))
    && Inv(m) && m.base == s.base && m.home == s.home && m.loops.Keys == s.loops.Keys
  }

  lemma LeadsOn(s: State, before: seq<Step>, m: State, step: Step)
    returns (steps: seq<Step>, n: State)
    requires Leads(s, before, m) && LoopStep(step) && Enabled(m, step)
    ensures n == Next(m, step) && Leads(s, steps, n)
  {
    steps, n := before + [step], Next(m, step);
    assert steps[..|steps| - 1] == before;
    StepKeepsInv(m, step);
    KeepsHomes(m, step);
  }

  lemma KeepsHomes(m: State, step: Step)
    requires LoopStep(step) && Enabled(m, step)
    ensures var n := Next(m, step); n.base == m.base && n.home == m.home && n.loops.Keys == m.loops.Keys
  {
    if step.CallbackStep? {
      var pc := m.loops[step.l].pc;
      if Sound(m, pc.c) && pc.callbacks[0] != WriteCallback {
        CloseKeepsHomes(SetPc(m, step.l, pc.(callbacks := pc.callbacks[1..])), pc.c);
      }
    }
  }

  lemma CloseKeepsHomes(m: State, c: ConnId)
    requires Sound(m, c)
    ensures var n := CloseConn(m, c); n.base == m.base && n.home == m.home && n.loops.Keys == m.loops.Keys
    ensures forall l :: l in m.loops ==>
              CloseConn(m, c).loops[l].pc == m.loops[l].pc && m.loops[l].pending <= CloseConn(m, c).loops[l].pending
  {
  }

  /** A callback is used up; what waits for the loop goes on waiting. */
  lemma CallbackEffect(m: State, l: LoopId, r: ReadResult, w: WriteResult)
    requires Inv(m) && Enabled(m, CallbackStep(l, r, w))
    ensures var n := Next(m, CallbackStep(l, r, w));
            var pc := m.loops[l].pc;
            l in n.loops && n.loops[l].pc == pc.(callbacks := pc.callbacks[1..]) && m.loops[l].pending <= n.loops[l].pending
  {
    CallbackTaken(m, l);
    CallbackLoops(m, l, r, w);
  }

  lemma CallbackLoops(m: State, l: LoopId, r: ReadResult, w: WriteResult)
    requires Enabled(m, CallbackStep(l, r, w)) && Sound(m, m.loops[l].pc.c)
    ensures var n := Next(m, CallbackStep(l, r, w));
            var pc := m.loops[l].pc;
            l in n.loops && n.loops[l].pc == pc.(callbacks := pc.callbacks[1..]) && m.loops[l].pending <= n.loops[l].pending
  {
    var pc := m.loops[l].pc;
    CloseKeepsHomes(SetPc(m, l, pc.(callbacks := pc.callbacks[1..])), pc.c);
  }

  /** So is a functor. */
  lemma FunctorEffect(m: State, l: LoopId, w: WriteResult)
    requires Inv(m) && Enabled(m, FunctorStep(l, w))
    ensures var n := Next(m, FunctorStep(l, w));
            && Sound(m, m.loops[l].pc.batch[0].c)
            && l in n.loops && n.loops[l].pc == Calling(m.loops[l].pc.batch[1..])
            && m.loops[l].pending <= n.loops[l].pending
  {
    FunctorIsPossible(m, l, w);
    FunctorLoops(m, l, w);
  }

  lemma FunctorLoops(m: State, l: LoopId, w: WriteResult)
    requires Enabled(m, FunctorStep(l, w)) && Sound(m, m.loops[l].pc.batch[0].c)
    ensures var n := Next(m, FunctorStep(l, w));
            && l in n.loops && n.loops[l].pc == Calling(m.loops[l].pc.batch[1..])
            && m.loops[l].pending <= n.loops[l].pending
  {
  }

  lemma {:induction false} EndHandling(s: State, before: seq<Step>, m: State, l: LoopId, f: Functor)
    returns (steps: seq<Step>, n: State)
    requires Leads(s, before, m) && l in m.loops && m.loops[l].pc.Handling? && f in m.loops[l].pending
    ensures Leads(s, steps, n) && l in n.loops && n.loops[l].pc.Walking? && f in n.loops[l].pending
    decreases |m.loops[l].pc.callbacks|
  {
    if m.loops[l].pc.callbacks == [] {
      steps, n := LeadsOn(s, before, m, HandledStep(l));
    } else {
      CallbackEffect(m, l, SomeBytes, WouldBlock);
      steps, n := LeadsOn(s, before, m, CallbackStep(l, SomeBytes, WouldBlock));
      steps, n := EndHandling(s, steps, n, l, f);
    }
  }

  /** The remaining active channels are walked over as if they had nothing to say. */
  lemma {:induction false} EndWalking(s: State, before: seq<Step>, m: State, l: LoopId, f: Functor)
    returns (steps: seq<Step>, n: State)
    requires Leads(s, before, m) && l in m.loops && m.loops[l].pc.Walking? && f in m.loops[l].pending
    ensures Leads(s, steps, n) && l in n.loops && n.loops[l].pc == Walking([]) && f in n.loops[l].pending
    decreases |m.loops[l].pc.active|
  {
    if m.loops[l].pc.active == [] {
      steps, n := before, m;
    } else {
      var silent := Revents(false, false, false, false, false, false);
      assert Callbacks(silent) == [];
      steps, n := LeadsOn(s, before, m, HandleStep(l, silent));
      steps, n := LeadsOn(s, steps, n, HandledStep(l));
      steps, n := EndWalking(s, steps, n, l, f);
    }
  }

  lemma {:induction false} EndBatch(s: State, before: seq<Step>, m: State, l: LoopId, f: Functor)
    returns (steps: seq<Step>, n: State)
    requires Leads(s, before, m) && l in m.loops && m.loops[l].pc.Calling? && f in m.loops[l].pending
    ensures Leads(s, steps, n) && l in n.loops && n.loops[l].pc == Polling && f in n.loops[l].pending
    decreases |m.loops[l].pc.batch|
  {
    if m.loops[l].pc.batch == [] {
      steps, n := LeadsOn(s, before, m, BatchDone(l));
    } else {
      FunctorEffect(m, l, WouldBlock);
      steps, n := LeadsOn(s, before, m, FunctorStep(l, WouldBlock));
      steps, n := EndBatch(s, steps, n, l, f);
    }
  }

  /** `f` is what loop `l` calls next. */
  predicate IsNext(s: State, l: LoopId, f: Functor) {
    l in s.loops && s.loops[l].pc.Calling? && s.loops[l].pc.batch != [] && s.loops[l].pc.batch[0] == f
  }

  lemma {:induction false} CallUpTo(s: State, before: seq<Step>, m: State, l: LoopId, f: Functor)
    returns (steps: seq<Step>, n: State)
    requires Leads(s, before, m) && l in m.loops && m.loops[l].pc.Calling? && f in m.loops[l].pc.batch
    ensures Leads(s, steps, n) && IsNext(n, l, f)
    decreases |m.loops[l].pc.batch|
  {
    if m.loops[l].pc.batch[0] == f {
      steps, n := before, m;
    } else {
      FunctorEffect(m, l, WouldBlock);
      steps, n := LeadsOn(s, before, m, FunctorStep(l, WouldBlock));
      steps, n := CallUpTo(s, steps, n, l, f);
    }
  }

  /** Every functor that waits can be reached by its loop alone. */
  lemma FunctorComes(s: State, before: seq<Step>, m: State, l: LoopId, f: Functor)
    returns (steps: seq<Step>, n: State)
    requires Leads(s, before, m) && l in m.loops && f in Outstanding(m.loops[l])
    ensures Leads(s, steps, n) && IsNext(n, l, f)
  {
    steps, n := before, m;
    if n.loops[l].pc.Calling? && f in n.loops[l].pc.batch {
      steps, n := CallUpTo(s, steps, n, l, f);
      return;
    }
    if n.loops[l].pc.Calling? {
      steps, n := EndBatch(s, steps, n, l, f);
    }
    if n.loops[l].pc.Handling? {
      steps, n := EndHandling(s, steps, n, l, f);
    } else if n.loops[l].pc == Polling {
      steps, n := LeadsOn(s, steps, n, PollReturn(l, []));
    }
    steps, n := EndWalking(s, steps, n, l, f);
    steps, n := LeadsOn(s, steps, n, SwapStep(l));
    steps, n := CallUpTo(s, steps, n, l, f);
  }

  /** The second hop, once it is next, posts the last one. */
  lemma RemoveLeadsToDestroy(m: State, l: LoopId, c: ConnId)
    requires Inv(m) && IsNext(m, l, DoRemove(c)) && c in m.home && m.home[c] in m.loops
    ensures var n := Next(m, FunctorStep(l, WouldBlock));
            m.home[c] in n.loops && DoDestroy(c) in Outstanding(n.loops[m.home[c]])
  {
    FunctorEffect(m, l, WouldBlock);
    StepKeepsInv(m, FunctorStep(l, WouldBlock));
    PostCounts(Popped(m, l).(connections := m.connections - {c}), m.home[c], DoDestroy(c));
  }

  /** The last hop, once it is next, removes the channel. */
  lemma DestroyEnds(m: State, l: LoopId, c: ConnId)
    requires Inv(m) && IsNext(m, l, DoDestroy(c))
    ensures var n := Next(m, FunctorStep(l, WouldBlock));
            c in n.conns && n.conns[c].destroyed == 1 && n.conns[c].index.New?
  {
    FunctorEffect(m, l, WouldBlock);
    StepKeepsInv(m, FunctorStep(l, WouldBlock));
    assert Good(m, c) && Good(Next(m, FunctorStep(l, WouldBlock)), c);
  }

  /** A teardown never gets stuck: from every reachable state, a connection that has been closed can be
      taken through its remaining hops by its loops alone. */
  lemma TeardownCanFinish(s0: State, steps: seq<Step>, c: ConnId) returns (more: seq<Step>)
    requires Initial(s0) && After(s0, steps).Some? && c in After(s0, steps).value.conns
    requires var k := After(s0, steps).value.conns[c]; k.state == Disconnected && k.index.Deleted?
    ensures forall step :: step in more ==> LoopStep(step)
    ensures var r := After(After(s0, steps).value, more);
            r.Some? && c in r.value.conns && r.value.conns[c].destroyed == 1 && r.value.conns[c].index.New?
  {
    Reachable(s0, steps);
    var s := After(s0, steps).value;
    assert Good(s, c);
    var io := s.home[c];
    var n := s;
    more := [];
    if Count(s, s.base, DoRemove(c)) == 1 {
      more, n := FunctorComes(s, more, n, s.base, DoRemove(c));
      RemoveLeadsToDestroy(n, s.base, c);
      more, n := LeadsOn(s, more, n, FunctorStep(s.base, WouldBlock));
    }
    more, n := FunctorComes(s, more, n, io, DoDestroy(c));
    DestroyEnds(n, io, c);
    more, n := LeadsOn(s, more, n, FunctorStep(io, WouldBlock));
  }
}
