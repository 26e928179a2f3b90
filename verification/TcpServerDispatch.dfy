/**
 What the loops do with what they are given: the events of Channel::handle_event (src/net/channel.cpp),
 the active channels of a poll, and the functors queued on a loop.
 */
module TcpServerDispatch {
  import opened Bytes
  import opened TcpConnections
  import opened TcpServers
  import opened TcpServerProgress

  // ---------------------------------------------------------------------------------------------
  // One event

  /** Handling one channel from the walk over the active channels to the next of them: the event `r`,
      then `n` callbacks, with what a read and a write meet. */
  function EventRun(l: LoopId, r: Revents, read: ReadResult, w: WriteResult, n: nat): (steps: seq<Step>) {
    [HandleStep(l, r)] + CallbacksAndEnd(l, read, w, n)
  }

  function CallbacksAndEnd(l: LoopId, read: ReadResult, w: WriteResult, n: nat): (steps: seq<Step>) {
    if n == 0 then [HandledStep(l)] else [CallbackStep(l, read, w)] + CallbacksAndEnd(l, read, w, n - 1)
  }

  /** The connection after some callbacks. */
  function AfterCallbacks(k: Conn, callbacks: seq<Callback>, read: ReadResult, w: WriteResult): (k': Conn)
    decreases |callbacks|
  {
    if callbacks == [] then k
    else
      var events := CallbackEvent(callbacks[0], read, w);
      AfterCallbacks(if events == [] then k else Happen(k, events[0]), callbacks[1..], read, w)
  }

  lemma {:induction false} Peel(s: State, step: Step, rest: seq<Step>)
    requires After(s, [step] + rest).Some?
    ensures Enabled(s, step) && After(s, [step] + rest) == After(Next(s, step), rest)
    decreases |rest|
  {
    if rest == [] {
      assert [step] + rest == [step] && [step][..0] == [];
    } else {
      var init := rest[..|rest| - 1];
      var steps := [step] + rest;
      assert steps[..|steps| - 1] == [step] + init && steps[|steps| - 1] == rest[|rest| - 1];
      Peel(s, step, init);
    }
  }

  /** The callbacks of a channel change its connection and nothing else the loop walks over. */
  ghost predicate Handled(s: State, l: LoopId, k: Conn, t: State)
    requires l in s.loops && s.loops[l].pc.Handling?
  {
    var pc := s.loops[l].pc;
    t.conns == s.conns[pc.c := k] && l in t.loops && t.loops[l].pc == Walking(pc.active)
  }

  /** One callback has run: its event has happened to the connection, and the next is up. */
  ghost predicate OneOn(s: State, l: LoopId, read: ReadResult, w: WriteResult, m: State) {
    && l in s.loops && s.loops[l].pc.Handling? && s.loops[l].pc.callbacks != [] && s.loops[l].pc.c in s.conns
    && var pc := s.loops[l].pc;
       var events := CallbackEvent(pc.callbacks[0], read, w);
       && l in m.loops && m.loops[l].pc == pc.(callbacks := pc.callbacks[1..])
       && m.conns == if events == [] then s.conns else s.conns[pc.c := Happen(s.conns[pc.c], events[0])]
  }

  lemma CallbackGoesOn(s: State, l: LoopId, read: ReadResult, w: WriteResult)
    requires Inv(s) && Enabled(s, CallbackStep(l, read, w))
    ensures var n := Next(s, CallbackStep(l, read, w)); Inv(n) && OneOn(s, l, read, w, n)
  {
    CallbackTaken(s, l);
    CallbackStepConns(s, l, read, w);
    CallbackEffect(s, l, read, w);
    StepKeepsInv(s, CallbackStep(l, read, w));
  }

  /** `n` callbacks and the end of the event lead to `t`. */
  ghost predicate EndsIn(s: State, l: LoopId, read: ReadResult, w: WriteResult, n: nat, t: State) {
    After(s, CallbacksAndEnd(l, read, w, n)) == Some(t)
  }

  lemma {:induction false} CallbacksRun(s: State, l: LoopId, read: ReadResult, w: WriteResult, n: nat, t: State)
    requires Inv(s) && AtHandling(s, l) && EndsIn(s, l, read, w, n, t)
    ensures HandledBy(s, l, read, w, t)
    decreases n
  {
    if n == 0 {
      NoCallbackLeft(s, l, read, w, t);
    } else {
      var m := FirstCallbackRuns(s, l, read, w, n, t);
      CallbacksRun(m, l, read, w, n - 1, t);
      HandledAfterOne(s, l, read, w, m, t);
    }
  }

  predicate AtHandling(s: State, l: LoopId) {
    l in s.loops && s.loops[l].pc.Handling? && s.loops[l].pc.c in s.conns
  }

  ghost predicate HandledBy(s: State, l: LoopId, read: ReadResult, w: WriteResult, t: State)
    requires AtHandling(s, l)
  {
    Handled(s, l, AfterCallbacks(s.conns[s.loops[l].pc.c], s.loops[l].pc.callbacks, read, w), t)
  }

  lemma FirstCallbackRuns(s: State, l: LoopId, read: ReadResult, w: WriteResult, n: nat, t: State) returns (m: State)
    requires n > 0 && Inv(s) && EndsIn(s, l, read, w, n, t)
    ensures OneOn(s, l, read, w, m) && Inv(m) && AtHandling(m, l) && EndsIn(m, l, read, w, n - 1, t)
  {
    Peel(s, CallbackStep(l, read, w), CallbacksAndEnd(l, read, w, n - 1));
    CallbackGoesOn(s, l, read, w);
    m := Next(s, CallbackStep(l, read, w));
  }

  lemma NoCallbackLeft(s: State, l: LoopId, read: ReadResult, w: WriteResult, t: State)
    requires AtHandling(s, l) && EndsIn(s, l, read, w, 0, t)
    ensures HandledBy(s, l, read, w, t)
  {
    assert CallbacksAndEnd(l, read, w, 0) == [HandledStep(l)] + [];
    Peel(s, HandledStep(l), []);
    assert s.conns[s.loops[l].pc.c := s.conns[s.loops[l].pc.c]] == s.conns;
  }

  lemma HandledAfterOne(s: State, l: LoopId, read: ReadResult, w: WriteResult, m: State, t: State)
    requires AtHandling(s, l) && AtHandling(m, l) && OneOn(s, l, read, w, m) && HandledBy(m, l, read, w, t)
    ensures HandledBy(s, l, read, w, t)
  {
  }

  lemma {:induction false} CallbacksCanRun(s: State, l: LoopId, read: ReadResult, w: WriteResult, n: nat)
    requires Inv(s) && l in s.loops && s.loops[l].pc.Handling? && n == |s.loops[l].pc.callbacks|
    ensures After(s, CallbacksAndEnd(l, read, w, n)).Some?
    decreases n
  {
    if n == 0 {
      Before(s, HandledStep(l), Next(s, HandledStep(l)), []);
      assert [HandledStep(l)] + [] == [HandledStep(l)];
    } else {
      var step := CallbackStep(l, read, w);
      CallbackGoesOn(s, l, read, w);
      var m := Next(s, step);
      CallbacksCanRun(m, l, read, w, n - 1);
      Before(s, step, m, CallbacksAndEnd(l, read, w, n - 1));
    }
  }

  /** The event closes the connection. */
  predicate Closes(r: Revents, read: ReadResult) {
    (r.hup && !r.isIn) || ((r.isIn || r.pri || r.rdhup) && read == EndOfStream)
  }

  /** What the event and the kernel's answers come to for an open connection: it is closed, or its state
      stays; and when the socket can be written on one not closed, what the kernel takes goes out. */
  predicate Outcome(k: Conn, r: Revents, read: ReadResult, w: WriteResult, k': Conn) {
    var bytes := if r.out && !Closes(r, read) && w.Wrote? then FirstOf(w.n, k.output) else "";
    && k'.state == (if Closes(r, read) then Disconnected else k.state)
    && k'.sent == k.sent + bytes && k.output == bytes + k'.output
  }

  lemma CallbacksOutcome(k: Conn, r: Revents, read: ReadResult, w: WriteResult)
    requires ConnOk(k) && Open(k) && Reportable(r)
    ensures Outcome(k, r, read, w, AfterCallbacks(k, Callbacks(r), read, w))
  {
    var tail: seq<Callback> := if r.out then [WriteCallback] else [];
    var m := if Closes(r, read) then HandleClose(k) else k;
    FirstCallback(k, r, read, w, tail);
    assert ConnOk(m) && m.state != Connecting;
    LastCallback(m, r, read, w, tail);
  }

  /** At most one callback comes before the write. */
  lemma FirstCallback(k: Conn, r: Revents, read: ReadResult, w: WriteResult, tail: seq<Callback>)
    requires Reportable(r) && tail == if r.out then [WriteCallback] else []
    ensures AfterCallbacks(k, Callbacks(r), read, w)
            == AfterCallbacks(if Closes(r, read) then HandleClose(k) else k, tail, read, w)
  {
    if r.hup && !r.isIn {
      assert Callbacks(r) == [CloseCallback] + tail && Callbacks(r)[1..] == tail;
    } else if r.isIn || r.pri || r.rdhup {
      assert Callbacks(r) == [ReadCallback] + tail && Callbacks(r)[1..] == tail;
    } else {
      assert Callbacks(r) == tail;
    }
  }

  lemma LastCallback(k: Conn, r: Revents, read: ReadResult, w: WriteResult, tail: seq<Callback>)
    requires ConnOk(k) && k.state != Connecting && tail == if r.out then [WriteCallback] else []
    ensures var bytes := if r.out && k.state != Disconnected && w.Wrote? then FirstOf(w.n, k.output) else "";
            var k' := AfterCallbacks(k, tail, read, w);
            k'.state == k.state && k'.sent == k.sent + bytes && k.output == bytes + k'.output
  {
    if r.out {
      assert tail[1..] == [] && AfterCallbacks(k, tail, read, w) == HandleWrite(k, w);
      WrittenOut(k, w);
    } else {
      assert k.sent + "" == k.sent && "" + k.output == k.output;
    }
  }

  lemma WrittenOut(k: Conn, w: WriteResult)
    requires ConnOk(k) && k.state != Connecting
    ensures var r := HandleWrite(k, w);
            var bytes := if k.state != Disconnected && w.Wrote? then FirstOf(w.n, k.output) else "";
            r.state == k.state && r.sent == k.sent + bytes && k.output == bytes + r.output
  {
    WriteAnswered(k, w);
    WriteKeeps(k, w);
    if k.writing {
      var n := Taken(w, k.output);
      assert k.output == k.output[..n] + k.output[n..] && k.output[..0] == "" && k.output[0..] == k.output;
    }
    assert k.sent + "" == k.sent && "" + k.output == k.output;
  }

  /** From every reachable state, whatever the event: its callbacks, run one after the other, do to the
      connection what the event and the kernel's answers mean, touch no other connection, and leave the
      loop at the next active channel. */
  lemma EventOutcome(s0: State, steps: seq<Step>, l: LoopId, r: Revents, read: ReadResult, w: WriteResult, n: nat)
    requires Initial(s0) && After(s0, steps).Some? && l in After(s0, steps).value.loops
    requires var pc := After(s0, steps).value.loops[l].pc; pc.Walking? && pc.active != []
    requires After(After(s0, steps).value, EventRun(l, r, read, w, n)).Some?
    ensures var s := After(s0, steps).value;
            var t := After(s, EventRun(l, r, read, w, n)).value;
            var c := s.loops[l].pc.active[0];
            && c in s.conns && c in t.conns && Outcome(s.conns[c], r, read, w, t.conns[c])
            && t.conns == s.conns[c := t.conns[c]]
            && l in t.loops && t.loops[l].pc == Walking(s.loops[l].pc.active[1..])
  {
    Reachable(s0, steps);
    var s := After(s0, steps).value;
    var c := s.loops[l].pc.active[0];
    Peel(s, HandleStep(l, r), CallbacksAndEnd(l, read, w, n));
    var m := Next(s, HandleStep(l, r));
    StepKeepsInv(s, HandleStep(l, r));
    assert Walks(s, l) && Ready(s, l, c) && Good(s, c);
    CallbacksRun(m, l, read, w, n, After(s, EventRun(l, r, read, w, n)).value);
    CallbacksOutcome(s.conns[c], r, read, w);
  }

  /** And they can always be run. */
  lemma EventCanRun(s0: State, steps: seq<Step>, l: LoopId, r: Revents, read: ReadResult, w: WriteResult)
    requires Initial(s0) && After(s0, steps).Some? && l in After(s0, steps).value.loops && Reportable(r)
    requires var pc := After(s0, steps).value.loops[l].pc; pc.Walking? && pc.active != []
    ensures exists n :: After(After(s0, steps).value, EventRun(l, r, read, w, n)).Some?
  {
    Reachable(s0, steps);
    var s := After(s0, steps).value;
    var m := Next(s, HandleStep(l, r));
    StepKeepsInv(s, HandleStep(l, r));
    var n := |m.loops[l].pc.callbacks|;
    CallbacksCanRun(m, l, read, w, n);
    Before(s, HandleStep(l, r), m, CallbacksAndEnd(l, read, w, n));
    assert After(s, EventRun(l, r, read, w, n)).Some?;
  }

  /** An event whose reads meet the end of the stream closes an open connection twice, which its assertion
      forbids, exactly when HUP comes without IN and with PRI or RDHUP. */
  lemma ClosesTwiceIff(k: Conn, r: Revents, w: WriteResult)
    requires ConnOk(k) && Open(k)
    ensures AfterCallbacks(k, Callbacks(r), EndOfStream, w).crashed <==> !Reportable(r)
  {
    var cs := Callbacks(r);
    var once := HandleClose(k);
    assert !once.crashed && once.state == Disconnected;
    var tail: seq<Callback> := if r.out then [WriteCallback] else [];
    if Reportable(r) {
      FirstCallback(k, r, EndOfStream, w, tail);
      TailIsQuiet(if Closes(r, EndOfStream) then once else k, tail, w);
    } else {
      assert cs == [CloseCallback] + ([ReadCallback] + tail);
      assert cs[1..] == [ReadCallback] + tail && cs[1..][1..] == tail;
      TailIsQuiet(HandleClose(once), tail, w);
    }
  }

  lemma TailIsQuiet(k: Conn, tail: seq<Callback>, w: WriteResult)
    requires tail == [] || tail == [WriteCallback]
    ensures AfterCallbacks(k, tail, EndOfStream, w).crashed == k.crashed
  {
    if tail != [] {
      assert tail[1..] == [];
    }
  }

  // ---------------------------------------------------------------------------------------------
  // The active channels of a loop

  /** The channels a poll of loop `l` reports. */
  function Polls(step: Step, l: LoopId): (cs: seq<ConnId>) {
    if step.PollReturn? && step.l == l then step.active else []
  }

  /** The channel loop `l` takes up. */
  function TakesUp(s: State, step: Step, l: LoopId): (cs: seq<ConnId>)
    requires Enabled(s, step)
  {
    if step.HandleStep? && step.l == l && l in Next(s, step).loops && Next(s, step).loops[l].pc.Handling?
    then [Next(s, step).loops[l].pc.c] else []
  }

  function Reported(steps: seq<Step>, l: LoopId): (cs: seq<ConnId>) {
    if steps == [] then [] else Reported(steps[..|steps| - 1], l) + Polls(steps[|steps| - 1], l)
  }

  function TakenUp(s0: State, steps: seq<Step>, l: LoopId): (cs: seq<ConnId>)
    requires After(s0, steps).Some?
  {
    if steps == [] then []
    else
      var init := steps[..|steps| - 1];
      TakenUp(s0, init, l) + TakesUp(After(s0, init).value, steps[|steps| - 1], l)
  }

  function StillActive(s: State, l: LoopId): (cs: seq<ConnId>) {
    if l !in s.loops then []
    else
      match s.loops[l].pc
      case Walking(active) => active
      case Handling(_, _, active) => active
      case _ => []
  }

  lemma StepWalks(s: State, step: Step, l: LoopId)
    requires Inv(s) && Enabled(s, step)
    ensures StillActive(s, l) + Polls(step, l) == TakesUp(s, step, l) + StillActive(Next(s, step), l)
  {
    if step.CallbackStep? || step.FunctorStep? {
      RunningWalks(s, step, l);
    } else if step.HandleStep? {
      HandleWalks(s, step.l, step.revents, l);
    } else {
      OthersWalk(s, step, l);
    }
  }

  lemma RunningWalks(s: State, step: Step, l: LoopId)
    requires Inv(s) && Enabled(s, step) && (step.CallbackStep? || step.FunctorStep?)
    ensures StillActive(Next(s, step), l) == StillActive(s, l)
  {
    if step.l != l {
      OtherLoopsStay(s, step, l);
    } else if step.CallbackStep? {
      CallbackEffect(s, l, step.r, step.w);
    } else {
      FunctorEffect(s, l, step.w);
    }
  }

  lemma HandleWalks(s: State, j: LoopId, r: Revents, l: LoopId)
    requires Enabled(s, HandleStep(j, r))
    ensures StillActive(s, l) == TakesUp(s, HandleStep(j, r), l) + StillActive(Next(s, HandleStep(j, r)), l)
  {
    var active := s.loops[j].pc.active;
    assert active == [active[0]] + active[1..];
  }

  lemma OthersWalk(s: State, step: Step, l: LoopId)
    requires Enabled(s, step) && !step.CallbackStep? && !step.FunctorStep? && !step.HandleStep?
    ensures StillActive(s, l) + Polls(step, l) == StillActive(Next(s, step), l)
  {
  }

  /** A loop's step moves no other loop on. */
  lemma OtherLoopsStay(s: State, step: Step, l: LoopId)
    requires Inv(s) && Enabled(s, step) && (step.CallbackStep? || step.FunctorStep?) && step.l != l
    ensures l in Next(s, step).loops <==> l in s.loops
    ensures l in s.loops ==> Next(s, step).loops[l].pc == s.loops[l].pc
  {
    if step.CallbackStep? {
      var pc := s.loops[step.l].pc;
      CallbackTaken(s, step.l);
      CloseKeepsHomes(SetPc(s, step.l, pc.(callbacks := pc.callbacks[1..])), pc.c);
    } else {
      FunctorEffect(s, step.l, step.w);
    }
  }

  /** In every run a loop takes up each channel its polls report, once and in order. */
  lemma {:induction false} EveryActiveChannelIsTakenUp(s0: State, steps: seq<Step>, l: LoopId)
    requires Initial(s0) && After(s0, steps).Some?
    ensures TakenUp(s0, steps, l) + StillActive(After(s0, steps).value, l) == Reported(steps, l)
  {
    if steps != [] {
      var init, step := steps[..|steps| - 1], steps[|steps| - 1];
      var m := After(s0, init).value;
      EveryActiveChannelIsTakenUp(s0, init, l);
      Reachable(s0, init);
      StepWalks(m, step, l);
      Reassociate(TakenUp(s0, init, l), StillActive(m, l), Polls(step, l));
      Reassociate(TakenUp(s0, init, l), TakesUp(m, step, l), StillActive(Next(m, step), l));
    }
  }

  // ---------------------------------------------------------------------------------------------
  // The functors of a loop

  /** What a step queues on loop `l`: a new connection's establishing, the two hops of a teardown, and
      what other threads ask for. */
  function Queues(s: State, step: Step, l: LoopId): (fs: seq<Functor>)
    requires Enabled(s, step)
  {
    match step
    case AcceptStep(io) => if io != s.base && l == io then [DoEstablish(s.nextId)] else []
    case CallbackStep(j, read, _) => CallbackQueues(s, s.loops[j].pc.c, s.loops[j].pc.callbacks[0], read, l)
    case FunctorStep(j, _) =>
      var f := s.loops[j].pc.batch[0];
      if f.DoRemove? && f.c in s.home && l == s.home[f.c] then [DoDestroy(f.c)] else []
    case OtherSend(c, data) => if l == s.home[c] then [DoSend(c, data)] else []
    case OtherShutdownPosts(c) => if l == s.home[c] then [DoHalfClose(c)] else []
    case _ => []
  }

  function CallbackQueues(s: State, c: ConnId, cb: Callback, read: ReadResult, l: LoopId): (fs: seq<Functor>) {
    if c in s.home && (cb == CloseCallback || (cb == ReadCallback && read == EndOfStream)) then
      if s.home[c] == s.base then (if l == s.base then [DoDestroy(c)] else [])
      else if l == s.base then [DoRemove(c)] else []
    else []
  }

  function Calls(s: State, step: Step, l: LoopId): (fs: seq<Functor>)
    requires Enabled(s, step)
  {
    if step.FunctorStep? && step.l == l then [s.loops[l].pc.batch[0]] else []
  }

  function QueuedOn(s0: State, steps: seq<Step>, l: LoopId): (fs: seq<Functor>)
    requires After(s0, steps).Some?
  {
    if steps == [] then []
    else
      var init := steps[..|steps| - 1];
      QueuedOn(s0, init, l) + Queues(After(s0, init).value, steps[|steps| - 1], l)
  }

  function CalledOn(s0: State, steps: seq<Step>, l: LoopId): (fs: seq<Functor>)
    requires After(s0, steps).Some?
  {
    if steps == [] then []
    else
      var init := steps[..|steps| - 1];
      CalledOn(s0, init, l) + Calls(After(s0, init).value, steps[|steps| - 1], l)
  }

  function Waiting(s: State, l: LoopId): (fs: seq<Functor>) {
    if l in s.loops then Outstanding(s.loops[l]) else []
  }

  lemma StepQueues(s: State, step: Step, l: LoopId)
    requires Inv(s) && Enabled(s, step)
    ensures Waiting(s, l) + Queues(s, step, l) == Calls(s, step, l) + Waiting(Next(s, step), l)
  {
    if step.FunctorStep? {
      FunctorStepQueues(s, step.l, step.w, l);
    } else if step.CallbackStep? {
      CallbackStepQueues(s, step.l, step.r, step.w, l);
    } else {
      UserQueues(s, step, l);
    }
  }

  lemma UserQueues(s: State, step: Step, l: LoopId)
    requires Enabled(s, step) && !step.CallbackStep? && !step.FunctorStep?
    ensures Waiting(Next(s, step), l) == Waiting(s, l) + Queues(s, step, l)
  {
    match step
    case AcceptStep(io) => AcceptQueues(s, io, l);
    case OtherSend(c, data) => PostQueues(s, s.home[c], DoSend(c, data), l);
    case OtherShutdownPosts(c) => PostQueues(s.(posting := s.posting - multiset{c}), s.home[c], DoHalfClose(c), l);
    case _ => OthersQueueNothing(s, step, l);
  }

  lemma OthersQueueNothing(s: State, step: Step, l: LoopId)
    requires Enabled(s, step) && !step.AcceptStep? && !step.CallbackStep? && !step.FunctorStep?
    requires !step.OtherSend? && !step.OtherShutdownPosts?
    ensures Waiting(Next(s, step), l) == Waiting(s, l)
  {
    if step.SwapStep? {
      assert s.loops[step.l].pending + [] == [] + s.loops[step.l].pending;
    }
  }

  lemma PostQueues(s: State, j: LoopId, f: Functor, l: LoopId)
    requires j in s.loops
    ensures Waiting(Post(s, j, f), l) == Waiting(s, l) + if l == j then [f] else []
  {
    PostCounts(s, j, f);
  }

  lemma AcceptQueues(s: State, io: LoopId, l: LoopId)
    requires io in s.loops
    ensures Waiting(Accept(s, io), l) == Waiting(s, l) + if io != s.base && l == io then [DoEstablish(s.nextId)] else []
  {
    if io != s.base {
      PostQueues(Made(s, io), io, DoEstablish(s.nextId), l);
    }
  }

  lemma CallbackStepQueues(s: State, j: LoopId, read: ReadResult, w: WriteResult, l: LoopId)
    requires Inv(s) && Enabled(s, CallbackStep(j, read, w))
    ensures var pc := s.loops[j].pc;
            Waiting(Next(s, CallbackStep(j, read, w)), l)
            == Waiting(s, l) + CallbackQueues(s, pc.c, pc.callbacks[0], read, l)
  {
    var pc := s.loops[j].pc;
    var c := pc.c;
    var m := SetPc(s, j, pc.(callbacks := pc.callbacks[1..]));
    CallbackTaken(s, j);
    StepKeepsInv(s, CallbackStep(j, read, w));
    assert Waiting(m, l) == Waiting(s, l);
    if pc.callbacks[0] == CloseCallback || (pc.callbacks[0] == ReadCallback && read == EndOfStream) {
      CloseQueues(m, c, l);
    }
  }

  lemma CloseQueues(s: State, c: ConnId, l: LoopId)
    requires Sound(s, c) && !CloseConn(s, c).crashed
    ensures Waiting(CloseConn(s, c), l) == Waiting(s, l) + CallbackQueues(s, c, CloseCallback, SomeBytes, l)
  {
    var r := SetConn(s, c, HandleClose(s.conns[c]));
    if s.home[c] == s.base {
      PostQueues(r.(connections := r.connections - {c}), s.home[c], DoDestroy(c), l);
    } else {
      PostQueues(r, s.base, DoRemove(c), l);
    }
  }

  lemma FunctorStepQueues(s: State, j: LoopId, w: WriteResult, l: LoopId)
    requires Inv(s) && Enabled(s, FunctorStep(j, w))
    ensures var step := FunctorStep(j, w);
            Waiting(s, l) + Queues(s, step, l) == Calls(s, step, l) + Waiting(Next(s, step), l)
  {
    FunctorIsPossible(s, j, w);
    StepKeepsInv(s, FunctorStep(j, w));
    var f := s.loops[j].pc.batch[0];
    var called := if l == j then [f] else [];
    PoppedWaits(s, j, l);
    RunQueues(Popped(s, j), f, w, l);
    Reassociate(called, Waiting(Popped(s, j), l), Queues(s, FunctorStep(j, w), l));
  }

  lemma PoppedWaits(s: State, j: LoopId, l: LoopId)
    requires j in s.loops && s.loops[j].pc.Calling? && s.loops[j].pc.batch != []
    ensures Waiting(s, l) == (if l == j then [s.loops[j].pc.batch[0]] else []) + Waiting(Popped(s, j), l)
  {
    PopCounts(s, j);
  }

  lemma RunQueues(s: State, f: Functor, w: WriteResult, l: LoopId)
    requires Sound(s, f.c) && !RunFunctor(s, f, w).crashed
    ensures Waiting(RunFunctor(s, f, w), l)
            == Waiting(s, l) + if f.DoRemove? && l == s.home[f.c] then [DoDestroy(f.c)] else []
  {
    if f.DoRemove? {
      RemoveQueues(s, f.c, l);
    } else {
      assert RunFunctor(s, f, w).loops == s.loops;
    }
  }

  lemma RemoveQueues(s: State, c: ConnId, l: LoopId)
    requires Sound(s, c) && c in s.connections
    ensures Waiting(RemoveInLoop(s, c), l) == Waiting(s, l) + if l == s.home[c] then [DoDestroy(c)] else []
  {
    PostQueues(s.(connections := s.connections - {c}), s.home[c], DoDestroy(c), l);
  }

  /** In every run of the whole server, on every loop: the functors called, followed by those that wait,
      are those queued on it, once each and in order. */
  lemma {:induction false} FunctorsAreCalledInOrder(s0: State, steps: seq<Step>, l: LoopId)
    requires Initial(s0) && After(s0, steps).Some?
    ensures CalledOn(s0, steps, l) + Waiting(After(s0, steps).value, l) == QueuedOn(s0, steps, l)
  {
    if steps != [] {
      var init, step := steps[..|steps| - 1], steps[|steps| - 1];
      var m := After(s0, init).value;
      FunctorsAreCalledInOrder(s0, init, l);
      Reachable(s0, init);
      StepQueues(m, step, l);
      Reassociate(CalledOn(s0, init, l), Waiting(m, l), Queues(m, step, l));
      Reassociate(CalledOn(s0, init, l), Calls(m, step, l), Waiting(Next(m, step), l));
    }
  }

  // ---------------------------------------------------------------------------------------------
  // The entries of connections_

  /** The connection a step takes out of `connections_`, by the second hop or by a close on the base loop. */
  function Erases(s: State, step: Step): (cs: set<ConnId>)
    requires Enabled(s, step)
  {
    match step
    case CallbackStep(j, read, _) =>
      var pc := s.loops[j].pc;
      if CallbackEvent(pc.callbacks[0], read, WouldBlock) == [Close] && pc.c in s.home && s.home[pc.c] == s.base
      then {pc.c} else {}
    case FunctorStep(j, _) => if s.loops[j].pc.batch[0].DoRemove? then {s.loops[j].pc.batch[0].c} else {}
    case _ => {}
  }

  function Enters(s: State, step: Step): (cs: set<ConnId>) {
    if step.AcceptStep? then {s.nextId} else {}
  }

  /** In every run, each erasure finds exactly its entry, each new connection is a new entry, and nothing
      else changes `connections_`. */
  lemma ErasedExactlyOnce(s0: State, steps: seq<Step>, step: Step)
    requires Initial(s0) && After(s0, steps).Some? && Enabled(After(s0, steps).value, step)
    ensures var s := After(s0, steps).value;
            && Erases(s, step) <= s.connections && Enters(s, step) !! s.connections
            && Next(s, step).connections == s.connections - Erases(s, step) + Enters(s, step)
  {
    Reachable(s0, steps);
    StepErases(After(s0, steps).value, step);
  }

  lemma StepErases(s: State, step: Step)
    requires Inv(s) && Enabled(s, step)
    ensures Erases(s, step) <= s.connections && Enters(s, step) !! s.connections
    ensures Next(s, step).connections == s.connections - Erases(s, step) + Enters(s, step)
  {
    StepKeepsInv(s, step);
    if step.CallbackStep? {
      CallbackErases(s, step.l, step.r, step.w);
    } else if step.FunctorStep? {
      FunctorErases(s, step.l, step.w);
    } else {
      NumberIsNew(s);
      OthersErase(s, step);
    }
  }

  lemma OthersErase(s: State, step: Step)
    requires Enabled(s, step) && !step.CallbackStep? && !step.FunctorStep?
    ensures Next(s, step).connections == s.connections + Enters(s, step)
  {
  }

  lemma CallbackErases(s: State, j: LoopId, read: ReadResult, w: WriteResult)
    requires Inv(s) && Enabled(s, CallbackStep(j, read, w)) && !Next(s, CallbackStep(j, read, w)).crashed
    ensures var step := CallbackStep(j, read, w);
            Erases(s, step) <= s.connections && Next(s, step).connections == s.connections - Erases(s, step)
  {
    CallbackTaken(s, j);
  }

  lemma FunctorErases(s: State, j: LoopId, w: WriteResult)
    requires Inv(s) && Enabled(s, FunctorStep(j, w)) && !Next(s, FunctorStep(j, w)).crashed
    ensures var step := FunctorStep(j, w);
            Erases(s, step) <= s.connections && Next(s, step).connections == s.connections - Erases(s, step)
  {
    FunctorIsPossible(s, j, w);
  }
}
