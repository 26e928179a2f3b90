/**
 The whole server of src/net/tcp_server.cpp, src/net/tcp_connection.cpp, src/net/channel.cpp and
 src/net/event_loop.cpp as one step system: a base loop, any number of io loops, and threads that send
 and shut down.  Each step is a stretch of code on one thread; loops, and threads outside them, interleave
 freely between steps.  The server itself is not destroyed.

 A connection is torn down in three hops: its io loop closes it, the base loop takes it out of
 `connections_`, and its io loop removes the channel.  The theorems say that the hops cannot overtake one
 another, and that every connection keeps the properties proved for one connection alone.
 */
module TcpServers {
  import opened Bytes
  import opened EpollPollers
  import opened TcpConnections

  type LoopId = nat
  type ConnId = nat

  datatype Functor =
    | DoEstablish(c: ConnId)                // connect_established
    | DoDestroy(c: ConnId)                  // connect_destroyed
    | DoRemove(c: ConnId)                   // remove_connection_in_loop
    | DoSend(c: ConnId, data: string)   // send_in_loop
    | DoHalfClose(c: ConnId)                // shut_down_in_loop

  /** The callbacks one channel event leads to; the error callback changes nothing. */
  datatype Callback = CloseCallback | ReadCallback | WriteCallback

  datatype Pc =
    | Polling
    | Walking(active: seq<ConnId>)        // between two channels of active_channels_
    | Handling(c: ConnId, callbacks: seq<Callback>, active: seq<ConnId>)
    | Calling(batch: seq<Functor>)        // in do_pending_functors

  datatype Loop = Loop(pc: Pc, pending: seq<Functor>)

  datatype State = State(
    base: LoopId,
    loops: map<LoopId, Loop>,
    home: map<ConnId, LoopId>,            // the io loop of each connection ever made
    conns: map<ConnId, Conn>,
    connections: set<ConnId>,             // connections_
    nextId: nat,                          // next_conn_id_
    posting: multiset<ConnId>,            // shutdown() calls elsewhere, between exchange and queue_in_loop
    crashed: bool)

  predicate Initial(s: State) {
    && s.base in s.loops
    && (forall l :: l in s.loops ==> s.loops[l] == Loop(Polling, []))
    && s.home == map[] && s.conns == map[] && s.connections == {} && s.nextId == 1
    && s.posting == multiset{} && !s.crashed
  }

  /** What epoll reports about one channel. */
  datatype Revents = Revents(isIn: bool, pri: bool, rdhup: bool, hup: bool, err: bool, out: bool)

  /** HUP comes with IN, or with neither PRI nor RDHUP (nobody subscribes to RDHUP). */
  predicate Reportable(r: Revents) {
    r.hup && !r.isIn ==> !r.pri && !r.rdhup
  }

  function Callbacks(r: Revents): (cs: seq<Callback>) {
    (if r.hup && !r.isIn then [CloseCallback] else [])
    + (if r.isIn || r.pri || r.rdhup then [ReadCallback] else [])
    + (if r.out then [WriteCallback] else [])
  }

  /** What read(2) brings: data for the user, the end of the stream, or an error. */
  datatype ReadResult = SomeBytes | EndOfStream | ReadError

  // ---------------------------------------------------------------------------------------------
  // The code

  /** The functors of a loop not yet run, in the order they will run. */
  function Outstanding(loop: Loop): (fs: seq<Functor>) {
    (if loop.pc.Calling? then loop.pc.batch else []) + loop.pending
  }

  function SetPc(s: State, l: LoopId, pc: Pc): (s': State)
    requires l in s.loops
  {
    s.(loops := s.loops[l := s.loops[l].(pc := pc)])
  }

  function Post(s: State, l: LoopId, f: Functor): (s': State)
    requires l in s.loops
  {
    s.(loops := s.loops[l := s.loops[l].(pending := s.loops[l].pending + [f])])
  }

  function SetConn(s: State, c: ConnId, k: Conn): (s': State) {
    s.(conns := s.conns[c := k], crashed := s.crashed || k.crashed)
  }

  /** Erases the connection, which has to be there, and posts the last hop. */
  function RemoveInLoop(s: State, c: ConnId): (s': State)
    requires c in s.home && s.home[c] in s.loops
  {
    if c !in s.connections then s.(crashed := true)
    else Post(s.(connections := s.connections - {c}), s.home[c], DoDestroy(c))
  }

  /** handle_close on the connection's loop, with the close callback's first hop. */
  function CloseConn(s: State, c: ConnId): (s': State)
    requires c in s.conns && c in s.home && s.home[c] in s.loops && s.base in s.loops
  {
    var r := SetConn(s, c, HandleClose(s.conns[c]));
    if s.home[c] == s.base then RemoveInLoop(r, c) else Post(r, s.base, DoRemove(c))
  }

  function RunCallback(s: State, c: ConnId, cb: Callback, r: ReadResult, w: WriteResult): (s': State)
    requires c in s.conns && c in s.home && s.home[c] in s.loops && s.base in s.loops
  {
    match cb
    case CloseCallback => CloseConn(s, c)
    case ReadCallback => if r == EndOfStream then CloseConn(s, c) else s
    case WriteCallback => SetConn(s, c, HandleWrite(s.conns[c], w))
  }

  function RunFunctor(s: State, f: Functor, w: WriteResult): (s': State)
    requires f.c in s.conns && f.c in s.home && s.home[f.c] in s.loops
  {
    match f
    case DoEstablish(c) => SetConn(s, c, ConnectEstablished(s.conns[c]))
    case DoDestroy(c) => SetConn(s, c, ConnectDestroyed(s.conns[c]))
    case DoRemove(c) => RemoveInLoop(s, c)
    case DoSend(c, data) => SetConn(s, c, SendInLoop(s.conns[c], data, w))
    case DoHalfClose(c) => SetConn(s, c, Happen(s.conns[c], ShutdownRuns))
  }

  /** new_connection on the base loop, for the io loop the pool picks. */
  function Accept(s: State, io: LoopId): (s': State)
    requires io in s.loops
  {
    var c := s.nextId;
    var r := s.(nextId := c + 1, home := s.home[c := io], conns := s.conns[c := NEW_CONN],
                connections := s.connections + {c});
    if io == s.base then SetConn(r, c, ConnectEstablished(NEW_CONN)) else Post(r, io, DoEstablish(c))
  }

  datatype Step =
    | AcceptStep(io: LoopId)
    | PollReturn(l: LoopId, active: seq<ConnId>)
    | HandleStep(l: LoopId, revents: Revents)
    | CallbackStep(l: LoopId, r: ReadResult, w: WriteResult)
    | HandledStep(l: LoopId)
    | SwapStep(l: LoopId)
    | FunctorStep(l: LoopId, w: WriteResult)
    | BatchDone(l: LoopId)
    | OwnSend(c: ConnId, data: string, w: WriteResult)  // send() on the connection's loop
    | OtherSend(c: ConnId, data: string)                // send() elsewhere, at its queue_in_loop
    | OwnShutdown(c: ConnId)                            // shutdown() on the connection's loop
    | OtherShutdown(c: ConnId)                          // shutdown() elsewhere, up to its exchange
    | OtherShutdownPosts(c: ConnId)                     // ... and its queue_in_loop

  /** A loop thread runs user code from a callback or a functor. */
  predicate Busy(pc: Pc) {
    pc.Handling? || pc.Calling? || pc.Walking?
  }

  predicate Distinct<T(==)>(s: seq<T>) {
    forall i, j :: 0 <= i < j < |s| ==> s[i] != s[j]
  }

  /** When each step is possible.  A connection is first handed out by connect_established, so nobody
      sends on or shuts down one that is connecting; and shutdown() is not called on a disconnected one. */
  predicate Enabled(s: State, step: Step) {
    match step
    case AcceptStep(io) => s.base in s.loops && Busy(s.loops[s.base].pc) && io in s.loops
    case PollReturn(l, active) =>
      l in s.loops && s.loops[l].pc == Polling && Distinct(active) &&
      forall c :: c in active ==> c in s.conns && c in s.home && s.home[c] == l && s.conns[c].index == Added
    case HandleStep(l, r) =>
      l in s.loops && s.loops[l].pc.Walking? && s.loops[l].pc.active != [] && Reportable(r)
    case CallbackStep(l, _, _) =>
      l in s.loops && s.loops[l].pc.Handling? && s.loops[l].pc.callbacks != []
    case HandledStep(l) => l in s.loops && s.loops[l].pc.Handling? && s.loops[l].pc.callbacks == []
    case SwapStep(l) => l in s.loops && s.loops[l].pc == Walking([])
    case FunctorStep(l, _) => l in s.loops && s.loops[l].pc.Calling? && s.loops[l].pc.batch != []
    case BatchDone(l) => l in s.loops && s.loops[l].pc == Calling([])
    case OwnSend(c, _, _) =>
      c in s.conns && c in s.home && s.home[c] in s.loops && Busy(s.loops[s.home[c]].pc) && s.conns[c].state != Connecting
    case OtherSend(c, _) => c in s.conns && c in s.home && s.home[c] in s.loops && s.conns[c].state != Connecting
    case OwnShutdown(c) =>
      c in s.conns && c in s.home && s.home[c] in s.loops && Busy(s.loops[s.home[c]].pc) && Open(s.conns[c])
    case OtherShutdown(c) => c in s.conns && c in s.home && s.home[c] in s.loops && Open(s.conns[c])
    case OtherShutdownPosts(c) => c in s.conns && c in s.home && s.home[c] in s.loops && c in s.posting
  }

  /** The connection a step of loop `l` is about has a loop to work on; otherwise the code would follow a
      pointer to nothing. */
  predicate Sound(s: State, c: ConnId) {
    c in s.conns && c in s.home && s.home[c] in s.loops && s.base in s.loops
  }

  function Next(s: State, step: Step): (s': State)
    requires Enabled(s, step)
  {
    match step
    case AcceptStep(io) => Accept(s, io)
    case PollReturn(l, active) => SetPc(s, l, Walking(active))
    case HandleStep(l, r) =>
      var active := s.loops[l].pc.active;
      SetPc(s, l, Handling(active[0], Callbacks(r), active[1..]))
    case CallbackStep(l, r, w) =>
      var pc := s.loops[l].pc;
      if !Sound(s, pc.c) then s.(crashed := true)
      else RunCallback(SetPc(s, l, pc.(callbacks := pc.callbacks[1..])), pc.c, pc.callbacks[0], r, w)
    case HandledStep(l) => SetPc(s, l, Walking(s.loops[l].pc.active))
    case SwapStep(l) => s.(loops := s.loops[l := Loop(Calling(s.loops[l].pending), [])])
    case FunctorStep(l, w) =>
      var batch := s.loops[l].pc.batch;
      if !Sound(s, batch[0].c) then s.(crashed := true)
      else RunFunctor(SetPc(s, l, Calling(batch[1..])), batch[0], w)
    case BatchDone(l) => SetPc(s, l, Polling)
    case OwnSend(c, data, w) =>
      if s.conns[c].state == Connected then SetConn(s, c, SendInLoop(s.conns[c], data, w)) else s
    case OtherSend(c, data) => Post(s, s.home[c], DoSend(c, data))
    case OwnShutdown(c) => SetConn(s, c, ShutdownCalled(s.conns[c], true))
    case OtherShutdown(c) =>
      var r := if s.conns[c].state == Connected then s.(posting := s.posting + multiset{c}) else s;
      SetConn(r, c, ShutdownCalled(s.conns[c], false))
    case OtherShutdownPosts(c) => Post(s.(posting := s.posting - multiset{c}), s.home[c], DoHalfClose(c))
  }

  function After(s: State, steps: seq<Step>): (r: Option<State>) {
    if steps == [] then Some(s)
    else
      var m := After(s, steps[..|steps| - 1]);
      var last := steps[|steps| - 1];
      if m.Some? && Enabled(m.value, last) then Some(Next(m.value, last)) else None
  }

  // ---------------------------------------------------------------------------------------------
  // Invariants

  /** How often `f` is waiting on loop `l`. */
  function Count(s: State, l: LoopId, f: Functor): (n: nat) {
    if l in s.loops then multiset(Outstanding(s.loops[l]))[f] else 0
  }

  /** How far a connection has come, and which hop of its teardown is on its way. */
  predicate Life(s: State, c: ConnId)
    requires c in s.conns && c in s.home
  {
    var k := s.conns[c];
    var io := s.home[c];
    var establish, remove, destroy := Count(s, io, DoEstablish(c)), Count(s, s.base, DoRemove(c)), Count(s, io, DoDestroy(c));
    match k.state
    case Connecting => establish == 1 && remove == 0 && destroy == 0 && c in s.connections
    case Disconnected =>
      && establish == 0
      && (k.index == Deleted ==>
            (remove == 1 && destroy == 0 && c in s.connections) || (remove == 0 && destroy == 1 && c !in s.connections))
      && (k.index == New ==> remove == 0 && destroy == 0 && c !in s.connections)
    case _ => establish == 0 && remove == 0 && destroy == 0 && c in s.connections
  }

  /** A connection going down has its half-close behind it or on its way, and the calls on their way are
      the threads about to queue one and the functors queued. */
  predicate HalfClosing(s: State, c: ConnId)
    requires c in s.conns && c in s.home
  {
    Progressing(s.conns[c]) && s.conns[c].inFlight == s.posting[c] + Count(s, s.home[c], DoHalfClose(c))
  }

  predicate Good(s: State, c: ConnId)
    requires c in s.conns
  {
    && c in s.home && s.home[c] in s.loops && c < s.nextId
    && ConnOk(s.conns[c]) && (s.conns[c].inFlight > 0 ==> s.conns[c].state != Connecting)
    && Life(s, c) && HalfClosing(s, c)
  }

  /** The loop a functor belongs to. */
  predicate Placed(s: State, l: LoopId, f: Functor) {
    && f.c in s.conns && f.c in s.home
    && l == (if f.DoRemove? then s.base else s.home[f.c])
    && ((f.DoSend? || f.DoHalfClose?) ==> s.conns[f.c].state != Connecting)
  }

  /** An active channel not yet handled belongs to an open connection of this loop. */
  predicate Ready(s: State, l: LoopId, c: ConnId) {
    c in s.conns && c in s.home && s.home[c] == l && Open(s.conns[c])
  }

  /** The loop's own pointers are good: the channels still to be handled are open; the one being handled
      is open, or has been closed with nothing but a write callback left. */
  predicate Walks(s: State, l: LoopId)
    requires l in s.loops
  {
    match s.loops[l].pc
    case Walking(active) => Distinct(active) && forall c :: c in active ==> Ready(s, l, c)
    case Handling(c, callbacks, active) =>
      && c in s.conns && c in s.home && s.home[c] == l && c !in active
      && s.conns[c].state != Connecting && s.conns[c].index != New
      && (Open(s.conns[c]) || (CloseCallback !in callbacks && ReadCallback !in callbacks))
      && ((CloseCallback in callbacks) ==> callbacks[0] == CloseCallback && ReadCallback !in callbacks)
      && (ReadCallback in callbacks ==> callbacks[0] == ReadCallback)
      && Distinct(callbacks) && Distinct(active) && (forall d :: d in active ==> Ready(s, l, d))
    case _ => true
  }

  /** Everything but the connections' own lives. */
  ghost predicate Core(s: State) {
    && !s.crashed && s.base in s.loops
    && s.home.Keys == s.conns.Keys && s.connections <= s.conns.Keys
    && (forall c: ConnId {:trigger s.posting[c]} :: s.posting[c] > 0 ==> c in s.conns)
    && (forall l, f {:trigger Placed(s, l, f)} :: l in s.loops && f in Outstanding(s.loops[l]) ==> Placed(s, l, f))
    && (forall l {:trigger Walks(s, l)} :: l in s.loops ==> Walks(s, l))
  }

  /** Every connection but `x`. */
  ghost predicate Others(s: State, x: ConnId) {
    forall c {:trigger Good(s, c)} :: c in s.conns && c != x ==> Good(s, c)
  }

  ghost predicate Inv(s: State) {
    Core(s) && forall c {:trigger Good(s, c)} :: c in s.conns ==> Good(s, c)
  }

  // ---------------------------------------------------------------------------------------------
  // Frames

  /** Two states agree on everything a connection's life depends on. */
  predicate Agree(s: State, r: State, c: ConnId)
    requires c in s.conns && c in s.home && c in r.conns && c in r.home
  {
    && r.base == s.base && r.loops.Keys == s.loops.Keys && r.nextId >= s.nextId
    && r.conns[c] == s.conns[c] && r.home[c] == s.home[c]
    && (c in r.connections <==> c in s.connections) && r.posting[c] == s.posting[c]
    && Count(r, s.home[c], DoEstablish(c)) == Count(s, s.home[c], DoEstablish(c))
    && Count(r, s.base, DoRemove(c)) == Count(s, s.base, DoRemove(c))
    && Count(r, s.home[c], DoDestroy(c)) == Count(s, s.home[c], DoDestroy(c))
    && Count(r, s.home[c], DoHalfClose(c)) == Count(s, s.home[c], DoHalfClose(c))
  }

  lemma GoodAgrees(s: State, r: State, c: ConnId)
    requires c in s.conns && c in s.home && c in r.conns && c in r.home
    requires Agree(s, r, c) && Good(s, c)
    ensures Good(r, c)
  {
  }

  lemma PostCounts(s: State, l: LoopId, f: Functor)
    requires l in s.loops
    ensures Outstanding(Post(s, l, f).loops[l]) == Outstanding(s.loops[l]) + [f]
    ensures forall k, g :: Count(Post(s, l, f), k, g) == Count(s, k, g) + if k == l && g == f then 1 else 0
  {
    var r := Post(s, l, f);
    assert Outstanding(r.loops[l]) == Outstanding(s.loops[l]) + [f];
  }

  lemma PostKeepsCore(s: State, l: LoopId, f: Functor)
    requires Core(s) && l in s.loops && Placed(s, l, f)
    ensures Core(Post(s, l, f))
  {
    var r := Post(s, l, f);
    PostCounts(s, l, f);
    forall k, g | k in r.loops && g in Outstanding(r.loops[k])
      ensures Placed(r, k, g)
    {
      assert Placed(s, k, g);
    }
    forall k | k in r.loops
      ensures Walks(r, k)
    {
      assert Walks(s, k);
    }
  }

  lemma PostKeepsOthers(s: State, l: LoopId, f: Functor)
    requires Core(s) && l in s.loops && Others(s, f.c)
    ensures Others(Post(s, l, f), f.c)
  {
    var r := Post(s, l, f);
    forall c | c in r.conns && c != f.c
      ensures Good(r, c)
    {
      assert Good(s, c);
      PostAgrees(s, l, f, c);
      GoodAgrees(s, r, c);
    }
  }

  lemma PostAgrees(s: State, l: LoopId, f: Functor, c: ConnId)
    requires l in s.loops && c in s.conns && c in s.home && (c != f.c || f.DoSend?)
    ensures Agree(s, Post(s, l, f), c)
  {
    PostCounts(s, l, f);
  }

  /** A connection that stays open, or whose loop has no pointer left to it but a write callback, may
      change. */
  predicate MayChange(s: State, c: ConnId, k: Conn)
    requires c in s.conns && c in s.home
  {
    && !k.crashed && (s.conns[c].state != Connecting ==> k.state != Connecting)
    && (((k.index == New ==> s.conns[c].index == New) && (Open(s.conns[c]) ==> Open(k)))
        || (s.home[c] in s.loops && s.loops[s.home[c]].pc.Calling?)
        || (s.home[c] in s.loops && s.loops[s.home[c]].pc.Handling? && s.loops[s.home[c]].pc.c == c
            && k.index != New
            && CloseCallback !in s.loops[s.home[c]].pc.callbacks && ReadCallback !in s.loops[s.home[c]].pc.callbacks))
  }

  lemma SetConnKeepsCore(s: State, c: ConnId, k: Conn)
    requires Core(s) && c in s.conns && MayChange(s, c, k)
    ensures Core(SetConn(s, c, k))
  {
    var r := SetConn(s, c, k);
    forall l, f | l in r.loops && f in Outstanding(r.loops[l])
      ensures Placed(r, l, f)
    {
      assert Placed(s, l, f);
    }
    forall l | l in r.loops
      ensures Walks(r, l)
    {
      assert Walks(s, l);
      ReadyKept(s, l, c, k);
    }
  }

  lemma ReadyKept(s: State, l: LoopId, c: ConnId, k: Conn)
    requires Core(s) && l in s.loops && Walks(s, l) && c in s.conns && MayChange(s, c, k)
    ensures Walks(SetConn(s, c, k), l)
  {
    var r := SetConn(s, c, k);
    var active := match s.loops[l].pc
                  case Walking(a) => a
                  case Handling(_, _, a) => a
                  case _ => [];
    forall d | d in active
      ensures Ready(r, l, d)
    {
      assert Ready(s, l, d);
    }
  }

  lemma SetConnCounts(s: State, c: ConnId, k: Conn)
    ensures forall l, f :: Count(SetConn(s, c, k), l, f) == Count(s, l, f)
  {
  }

  lemma SetConnKeepsOthers(s: State, c: ConnId, k: Conn)
    requires Core(s) && c in s.conns && Others(s, c)
    ensures Others(SetConn(s, c, k), c)
  {
    var r := SetConn(s, c, k);
    forall d | d in r.conns && d != c
      ensures Good(r, d)
    {
      assert Good(s, d);
      GoodAgrees(s, r, d);
    }
  }

  /** A loop moves on without touching what is waiting for it. */
  lemma PcKeepsInv(s: State, l: LoopId, loop: Loop)
    requires Inv(s) && l in s.loops && Outstanding(loop) == Outstanding(s.loops[l])
    requires Walks(s.(loops := s.loops[l := loop]), l)
    ensures Inv(s.(loops := s.loops[l := loop]))
  {
    var r := s.(loops := s.loops[l := loop]);
    PcKeepsCore(s, l, loop);
    forall c | c in r.conns
      ensures Good(r, c)
    {
      assert Good(s, c);
      GoodAgrees(s, r, c);
    }
  }

  lemma PcKeepsCore(s: State, l: LoopId, loop: Loop)
    requires Core(s) && l in s.loops && Outstanding(loop) == Outstanding(s.loops[l])
    requires Walks(s.(loops := s.loops[l := loop]), l)
    ensures Core(s.(loops := s.loops[l := loop]))
  {
    var r := s.(loops := s.loops[l := loop]);
    forall k, f | k in r.loops && f in Outstanding(r.loops[k])
      ensures Placed(r, k, f)
    {
      assert Placed(s, k, f);
    }
    forall k | k in r.loops
      ensures Walks(r, k)
    {
      assert Walks(s, k);
    }
  }

  lemma InvFromOthers(s: State, c: ConnId)
    requires Core(s) && Others(s, c) && (c in s.conns ==> Good(s, c))
    ensures Inv(s)
  {
  }

  // ---------------------------------------------------------------------------------------------
  // Each step keeps the invariant

  lemma PollKeepsInv(s: State, l: LoopId, active: seq<ConnId>)
    requires Inv(s) && Enabled(s, PollReturn(l, active))
    ensures Inv(Next(s, PollReturn(l, active)))
  {
    var r := Next(s, PollReturn(l, active));
    forall c | c in active
      ensures Ready(r, l, c)
    {
      assert Good(s, c);
    }
    PcKeepsInv(s, l, r.loops[l]);
  }

  /** A close comes first and is never followed by a read; each callback comes once. */
  lemma CallbacksShape(r: Revents)
    requires Reportable(r)
    ensures var cs := Callbacks(r);
            && (CloseCallback in cs ==> cs[0] == CloseCallback && ReadCallback !in cs)
            && (ReadCallback in cs ==> cs[0] == ReadCallback)
            && Distinct(cs)
  {
  }

  lemma HandleKeepsInv(s: State, l: LoopId, revents: Revents)
    requires Inv(s) && Enabled(s, HandleStep(l, revents))
    ensures Inv(Next(s, HandleStep(l, revents)))
  {
    var r := Next(s, HandleStep(l, revents));
    HandlingWalks(s, l, revents);
    PcKeepsInv(s, l, r.loops[l]);
  }

  /** The channel taken up is open, and so are the ones left. */
  lemma HandlingWalks(s: State, l: LoopId, revents: Revents)
    requires Inv(s) && Enabled(s, HandleStep(l, revents))
    ensures Walks(Next(s, HandleStep(l, revents)), l)
  {
    var r := Next(s, HandleStep(l, revents));
    var active := s.loops[l].pc.active;
    CallbacksShape(revents);
    assert Walks(s, l);
    DistinctTail(active);
    forall c | c in active
      ensures Ready(r, l, c)
    {
      assert Ready(s, l, c);
    }
    assert Good(s, active[0]);
  }

  lemma DistinctTail<T>(s: seq<T>)
    requires Distinct(s) && s != []
    ensures s[0] in s && s[0] !in s[1..] && Distinct(s[1..]) && forall x :: x in s[1..] ==> x in s
  {
    assert s == [s[0]] + s[1..];
  }

  lemma LoopStepsKeepInv(s: State, step: Step)
    requires Inv(s) && Enabled(s, step)
    requires step.HandledStep? || step.SwapStep? || step.BatchDone?
    ensures Inv(Next(s, step))
  {
    var l := step.l;
    var r := Next(s, step);
    assert Walks(s, l);
    if step.HandledStep? {
      forall c | c in s.loops[l].pc.active
        ensures Ready(r, l, c)
      {
        assert Ready(s, l, c);
      }
    }
    PcKeepsInv(s, l, r.loops[l]);
  }

  /** A change to one connection that leaves it in order. */
  lemma SetConnKeepsInv(s: State, c: ConnId, k: Conn)
    requires Inv(s) && c in s.conns && MayChange(s, c, k) && Good(SetConn(s, c, k), c)
    ensures Inv(SetConn(s, c, k))
  {
    SetConnKeepsCore(s, c, k);
    SetConnKeepsOthers(s, c, k);
    InvFromOthers(SetConn(s, c, k), c);
  }

  lemma UserStepsKeepInv(s: State, step: Step)
    requires Inv(s) && Enabled(s, step)
    requires step.OwnSend? || step.OwnShutdown?
    ensures Inv(Next(s, step))
  {
    var c := step.c;
    assert Good(s, c);
    if step.OwnSend? {
      if s.conns[c].state == Connected {
        SendKeeps(s.conns[c], step.data, step.w);
        SetConnKeepsInv(s, c, SendInLoop(s.conns[c], step.data, step.w));
      }
    } else {
      SetConnKeepsInv(s, c, ShutdownCalled(s.conns[c], true));
    }
  }

  lemma PostingKeeps(s: State, c: ConnId, posting: multiset<ConnId>)
    requires Inv(s) && c in s.conns && forall d: ConnId :: d != c ==> posting[d] == s.posting[d]
    ensures Core(s.(posting := posting)) && Others(s.(posting := posting), c)
  {
    var r := s.(posting := posting);
    forall l, f | l in r.loops && f in Outstanding(r.loops[l])
      ensures Placed(r, l, f)
    {
      assert Placed(s, l, f);
    }
    forall l | l in r.loops
      ensures Walks(r, l)
    {
      assert Walks(s, l);
    }
    forall d | d in r.conns && d != c
      ensures Good(r, d)
    {
      assert Good(s, d);
      GoodAgrees(s, r, d);
    }
  }

  lemma OtherShutdownKeepsInv(s: State, c: ConnId)
    requires Inv(s) && Enabled(s, OtherShutdown(c))
    ensures Inv(Next(s, OtherShutdown(c)))
  {
    assert Good(s, c);
    var m := if s.conns[c].state == Connected then s.(posting := s.posting + multiset{c}) else s;
    PostingKeeps(s, c, m.posting);
    FunctorOnConn(m, c, ShutdownCalled(s.conns[c], false));
  }

  /** A send may be posted at any time. */
  lemma UserPostKeepsInv(s: State, c: ConnId, data: string)
    requires Inv(s) && c in s.conns && s.conns[c].state != Connecting
    ensures c in s.home && s.home[c] in s.loops && Inv(Post(s, s.home[c], DoSend(c, data)))
  {
    assert Good(s, c);
    var f := DoSend(c, data);
    var r := Post(s, s.home[c], f);
    PostKeepsCore(s, s.home[c], f);
    PostKeepsOthers(s, s.home[c], f);
    PostAgrees(s, s.home[c], f, c);
    GoodAgrees(s, r, c);
    InvFromOthers(r, c);
  }

  lemma ShutdownPostsKeepInv(s: State, c: ConnId)
    requires Inv(s) && Enabled(s, OtherShutdownPosts(c))
    ensures Inv(Next(s, OtherShutdownPosts(c)))
  {
    assert Good(s, c);
    var f := DoHalfClose(c);
    var m := s.(posting := s.posting - multiset{c});
    PostingKeeps(s, c, m.posting);
    PostKeepsCore(m, s.home[c], f);
    PostKeepsOthers(m, s.home[c], f);
    PostedIsGood(s, c);
    InvFromOthers(Post(m, s.home[c], f), c);
  }

  /** The functor changes nothing about how far the connection has come. */
  lemma PostedLife(m: State, c: ConnId)
    requires c in m.conns && c in m.home && m.home[c] in m.loops && Life(m, c)
    ensures Life(Post(m, m.home[c], DoHalfClose(c)), c)
  {
    PostCounts(m, m.home[c], DoHalfClose(c));
  }

  lemma PostedIsGood(s: State, c: ConnId)
    requires c in s.conns && Good(s, c) && c in s.posting
    ensures Good(Post(s.(posting := s.posting - multiset{c}), s.home[c], DoHalfClose(c)), c)
  {
    var m := s.(posting := s.posting - multiset{c});
    assert Life(m, c);
    PostedLife(m, c);
    PostCounts(m, s.home[c], DoHalfClose(c));
    assert m.posting[c] + 1 == s.posting[c];
  }

  lemma DropKeeps(s: State, c: ConnId)
    requires Core(s) && Others(s, c)
    ensures Core(s.(connections := s.connections - {c})) && Others(s.(connections := s.connections - {c}), c)
  {
    var r := s.(connections := s.connections - {c});
    forall l, f | l in r.loops && f in Outstanding(r.loops[l])
      ensures Placed(r, l, f)
    {
      assert Placed(s, l, f);
    }
    forall l | l in r.loops
      ensures Walks(r, l)
    {
      assert Walks(s, l);
    }
    forall d | d in r.conns && d != c
      ensures Good(r, d)
    {
      assert Good(s, d);
      GoodAgrees(s, r, d);
    }
  }

  /** The second hop: out of `connections_`, and the last hop posted. */
  lemma RemoveKeepsInv(s: State, c: ConnId)
    requires Core(s) && Others(s, c) && c in s.conns && c in s.home && s.home[c] in s.loops && c < s.nextId
    requires c in s.connections && ConnOk(s.conns[c]) && s.conns[c].state == Disconnected && s.conns[c].index == Deleted
    requires Count(s, s.home[c], DoEstablish(c)) == 0 && Count(s, s.base, DoRemove(c)) == 0
    requires Count(s, s.home[c], DoDestroy(c)) == 0 && HalfClosing(s, c)
    ensures Inv(RemoveInLoop(s, c))
  {
    var m := s.(connections := s.connections - {c});
    DropKeeps(s, c);
    PostKeepsCore(m, s.home[c], DoDestroy(c));
    PostKeepsOthers(m, s.home[c], DoDestroy(c));
    RemovedIsGood(s, c);
    InvFromOthers(RemoveInLoop(s, c), c);
  }

  lemma RemovedIsGood(s: State, c: ConnId)
    requires c in s.conns && c in s.home && s.home[c] in s.loops && s.base in s.loops && c < s.nextId
    requires c in s.connections && ConnOk(s.conns[c]) && s.conns[c].state == Disconnected && s.conns[c].index == Deleted
    requires Count(s, s.home[c], DoEstablish(c)) == 0 && Count(s, s.base, DoRemove(c)) == 0
    requires Count(s, s.home[c], DoDestroy(c)) == 0 && HalfClosing(s, c)
    ensures Good(RemoveInLoop(s, c), c)
  {
    PostCounts(s.(connections := s.connections - {c}), s.home[c], DoDestroy(c));
  }

  /** The first hop, from a callback that leaves at most a write callback behind. */
  lemma CloseKeepsInv(s: State, c: ConnId)
    requires Inv(s) && c in s.conns && c in s.home && s.home[c] in s.loops && Open(s.conns[c])
    requires var pc := s.loops[s.home[c]].pc;
             pc.Handling? && pc.c == c && CloseCallback !in pc.callbacks && ReadCallback !in pc.callbacks
    ensures Inv(CloseConn(s, c))
  {
    assert Good(s, c);
    var k := HandleClose(s.conns[c]);
    var m := SetConn(s, c, k);
    SetConnKeepsCore(s, c, k);
    SetConnKeepsOthers(s, c, k);
    if s.home[c] == s.base {
      RemoveKeepsInv(m, c);
    } else {
      PostKeepsCore(m, s.base, DoRemove(c));
      PostKeepsOthers(m, s.base, DoRemove(c));
      ClosedIsGood(s, c);
      InvFromOthers(CloseConn(s, c), c);
    }
  }

  /** A close off the base loop leaves the second hop on its way. */
  lemma ClosedIsGood(s: State, c: ConnId)
    requires c in s.conns && Good(s, c) && Open(s.conns[c]) && s.base in s.loops && s.home[c] != s.base
    ensures Good(CloseConn(s, c), c)
  {
    var k := HandleClose(s.conns[c]);
    SetConnCounts(s, c, k);
    PostCounts(SetConn(s, c, k), s.base, DoRemove(c));
  }

  lemma CallbackKeepsInv(s: State, l: LoopId, r: ReadResult, w: WriteResult)
    requires Inv(s) && Enabled(s, CallbackStep(l, r, w))
    ensures Inv(Next(s, CallbackStep(l, r, w)))
  {
    var pc := s.loops[l].pc;
    var c := pc.c;
    var m := SetPc(s, l, pc.(callbacks := pc.callbacks[1..]));
    CallbackTaken(s, l);
    match pc.callbacks[0]
    case CloseCallback => CloseKeepsInv(m, c);
    case ReadCallback =>
      if r == EndOfStream {
        CloseKeepsInv(m, c);
      }
    case WriteCallback =>
      assert Good(m, c);
      WriteKeeps(m.conns[c], w);
      SetConnKeepsInv(m, c, HandleWrite(m.conns[c], w));
  }

  /** The next callback is taken up. */
  lemma CallbackTaken(s: State, l: LoopId)
    requires Inv(s) && l in s.loops && s.loops[l].pc.Handling? && s.loops[l].pc.callbacks != []
    ensures var pc := s.loops[l].pc;
            var tail := pc.callbacks[1..];
            && Sound(s, pc.c) && s.home[pc.c] == l && Inv(SetPc(s, l, pc.(callbacks := tail)))
            && (pc.callbacks[0] != WriteCallback ==> Open(s.conns[pc.c]) && CloseCallback !in tail && ReadCallback !in tail)
  {
    var pc := s.loops[l].pc;
    var m := SetPc(s, l, pc.(callbacks := pc.callbacks[1..]));
    assert Walks(s, l) && Good(s, pc.c);
    assert pc.callbacks == [pc.callbacks[0]] + pc.callbacks[1..];
    forall d | d in pc.active
      ensures Ready(m, l, d)
    {
      assert Ready(s, l, d);
    }
    PcKeepsInv(s, l, m.loops[l]);
  }

  /** Taking the next functor off a batch. */
  function Popped(s: State, l: LoopId): (m: State)
    requires l in s.loops && s.loops[l].pc.Calling? && s.loops[l].pc.batch != []
  {
    SetPc(s, l, Calling(s.loops[l].pc.batch[1..]))
  }

  lemma PopCounts(s: State, l: LoopId)
    requires l in s.loops && s.loops[l].pc.Calling? && s.loops[l].pc.batch != []
    ensures var f := s.loops[l].pc.batch[0];
            && Outstanding(s.loops[l]) == [f] + Outstanding(Popped(s, l).loops[l])
            && Count(s, l, f) > 0
            && forall k, g :: Count(Popped(s, l), k, g) == Count(s, k, g) - if k == l && g == f then 1 else 0
  {
    var f := s.loops[l].pc.batch[0];
    var before, after := Outstanding(s.loops[l]), Outstanding(Popped(s, l).loops[l]);
    assert before == [f] + after;
    assert multiset(before) == multiset{f} + multiset(after);
  }

  lemma PopKeepsCore(s: State, l: LoopId)
    requires Inv(s) && l in s.loops && s.loops[l].pc.Calling? && s.loops[l].pc.batch != []
    ensures Placed(s, l, s.loops[l].pc.batch[0]) && Core(Popped(s, l))
  {
    var m := Popped(s, l);
    PopCounts(s, l);
    assert s.loops[l].pc.batch[0] in Outstanding(s.loops[l]);
    forall k, g | k in m.loops && g in Outstanding(m.loops[k])
      ensures Placed(m, k, g)
    {
      assert g in Outstanding(s.loops[k]) && Placed(s, k, g);
    }
    forall k | k in m.loops
      ensures Walks(m, k)
    {
      assert Walks(s, k);
    }
  }

  lemma PopKeepsOthers(s: State, l: LoopId)
    requires Inv(s) && l in s.loops && s.loops[l].pc.Calling? && s.loops[l].pc.batch != []
    ensures Others(Popped(s, l), s.loops[l].pc.batch[0].c)
  {
    var m := Popped(s, l);
    forall c | c in m.conns && c != s.loops[l].pc.batch[0].c
      ensures Good(m, c)
    {
      assert Good(s, c);
      PopAgrees(s, l, c);
      GoodAgrees(s, m, c);
    }
  }

  lemma PopAgrees(s: State, l: LoopId, c: ConnId)
    requires l in s.loops && s.loops[l].pc.Calling? && s.loops[l].pc.batch != []
    requires c in s.conns && c in s.home && c != s.loops[l].pc.batch[0].c
    ensures Agree(s, Popped(s, l), c)
  {
    PopCounts(s, l);
  }

  /** A functor on a connection's own loop leaves the connection in order. */
  lemma FunctorOnConn(m: State, c: ConnId, k: Conn)
    requires Core(m) && Others(m, c) && c in m.conns && c in m.home && MayChange(m, c, k)
    requires Good(SetConn(m, c, k), c)
    ensures Inv(SetConn(m, c, k))
  {
    SetConnKeepsCore(m, c, k);
    SetConnKeepsOthers(m, c, k);
    InvFromOthers(SetConn(m, c, k), c);
  }

  /** Posted once, when the connection was made. */
  lemma EstablishRuns(s: State, l: LoopId, c: ConnId)
    requires Inv(s) && l in s.loops && s.loops[l].pc.Calling? && s.loops[l].pc.batch != []
    requires s.loops[l].pc.batch[0] == DoEstablish(c)
    ensures Sound(s, c) && Inv(SetConn(Popped(s, l), c, ConnectEstablished(s.conns[c])))
  {
    var m := Popped(s, l);
    PopKeepsCore(s, l);
    PopKeepsOthers(s, l);
    PopCounts(s, l);
    assert Good(s, c);
    SetConnCounts(m, c, ConnectEstablished(s.conns[c]));
    FunctorOnConn(m, c, ConnectEstablished(s.conns[c]));
  }

  /** Posted once, by the second hop. */
  lemma DestroyRuns(s: State, l: LoopId, c: ConnId)
    requires Inv(s) && l in s.loops && s.loops[l].pc.Calling? && s.loops[l].pc.batch != []
    requires s.loops[l].pc.batch[0] == DoDestroy(c)
    ensures Sound(s, c) && Inv(SetConn(Popped(s, l), c, ConnectDestroyed(s.conns[c])))
  {
    var m := Popped(s, l);
    PopKeepsCore(s, l);
    PopKeepsOthers(s, l);
    PopCounts(s, l);
    assert Good(s, c);
    SetConnCounts(m, c, ConnectDestroyed(s.conns[c]));
    FunctorOnConn(m, c, ConnectDestroyed(s.conns[c]));
  }

  /** Posted once, by the first hop. */
  lemma RemoveRuns(s: State, l: LoopId, c: ConnId)
    requires Inv(s) && l in s.loops && s.loops[l].pc.Calling? && s.loops[l].pc.batch != []
    requires s.loops[l].pc.batch[0] == DoRemove(c)
    ensures Sound(s, c) && Inv(RemoveInLoop(Popped(s, l), c))
  {
    var m := Popped(s, l);
    PopKeepsCore(s, l);
    PopKeepsOthers(s, l);
    PopCounts(s, l);
    assert Good(s, c);
    RemoveKeepsInv(m, c);
  }

  /** A send from another thread reaches the loop, whatever has become of the connection. */
  lemma SendRuns(s: State, l: LoopId, c: ConnId, data: string, w: WriteResult)
    requires Inv(s) && l in s.loops && s.loops[l].pc.Calling? && s.loops[l].pc.batch != []
    requires s.loops[l].pc.batch[0] == DoSend(c, data)
    ensures Sound(s, c) && Inv(SetConn(Popped(s, l), c, SendInLoop(s.conns[c], data, w)))
  {
    var m := Popped(s, l);
    PopKeepsCore(s, l);
    PopKeepsOthers(s, l);
    PopCounts(s, l);
    assert Good(s, c);
    var k := SendInLoop(s.conns[c], data, w);
    SendKeeps(s.conns[c], data, w);
    SentIsGood(s, m, c, k);
    FunctorOnConn(m, c, k);
  }

  /** A connection that has sent in its state keeps its place in the teardown. */
  lemma SentIsGood(s: State, m: State, c: ConnId, k: Conn)
    requires c in s.conns && c in s.home && c in m.conns && c in m.home && Agree(s, m, c) && Good(s, c)
    requires ConnOk(k) && k.state == s.conns[c].state && k.index == s.conns[c].index
    requires k.shutWr == s.conns[c].shutWr && k.inFlight == s.conns[c].inFlight && (s.conns[c].writing ==> k.writing)
    ensures Good(SetConn(m, c, k), c)
  {
    SetConnCounts(m, c, k);
  }

  /** So does a shutdown. */
  lemma HalfCloseRuns(s: State, l: LoopId, c: ConnId)
    requires Inv(s) && l in s.loops && s.loops[l].pc.Calling? && s.loops[l].pc.batch != []
    requires s.loops[l].pc.batch[0] == DoHalfClose(c)
    ensures Sound(s, c) && Inv(SetConn(Popped(s, l), c, Happen(s.conns[c], ShutdownRuns)))
  {
    var m := Popped(s, l);
    PopKeepsCore(s, l);
    PopKeepsOthers(s, l);
    PopCounts(s, l);
    assert Good(s, c);
    var k := Happen(s.conns[c], ShutdownRuns);
    HappenKeeps(s.conns[c], ShutdownRuns);
    SetConnCounts(m, c, k);
    FunctorOnConn(m, c, k);
  }

  lemma FunctorKeepsInv(s: State, l: LoopId, w: WriteResult)
    requires Inv(s) && Enabled(s, FunctorStep(l, w))
    ensures Inv(Next(s, FunctorStep(l, w)))
  {
    match s.loops[l].pc.batch[0]
    case DoEstablish(c) => EstablishRuns(s, l, c);
    case DoDestroy(c) => DestroyRuns(s, l, c);
    case DoRemove(c) => RemoveRuns(s, l, c);
    case DoSend(c, data) => SendRuns(s, l, c, data, w);
    case DoHalfClose(c) => HalfCloseRuns(s, l, c);
  }

  /** A connection made but not yet announced to its loop. */
  function Made(s: State, io: LoopId): (m: State) {
    var c := s.nextId;
    s.(nextId := c + 1, home := s.home[c := io], conns := s.conns[c := NEW_CONN],
       connections := s.connections + {c})
  }

  lemma NumberIsNew(s: State)
    requires Inv(s)
    ensures s.nextId !in s.conns && s.nextId !in s.home && s.nextId !in s.connections && s.posting[s.nextId] == 0
    ensures forall l, f: Functor :: f.c == s.nextId ==> Count(s, l, f) == 0
  {
    var c := s.nextId;
    assert c !in s.conns by {
      assert c in s.conns ==> Good(s, c);
    }
    forall l, f: Functor | f.c == c
      ensures Count(s, l, f) == 0
    {
      assert l in s.loops && f in Outstanding(s.loops[l]) ==> Placed(s, l, f);
    }
  }

  lemma MadeKeeps(s: State, io: LoopId)
    requires Inv(s) && io in s.loops
    ensures s.nextId !in s.conns && Core(Made(s, io)) && Others(Made(s, io), s.nextId)
    ensures Made(s, io).posting[s.nextId] == 0
    ensures forall l, f: Functor :: f.c == s.nextId ==> Count(Made(s, io), l, f) == 0
  {
    NumberIsNew(s);
    var m := Made(s, io);
    MadeKeepsCore(s, io);
    forall d | d in m.conns && d != s.nextId
      ensures Good(m, d)
    {
      assert Good(s, d);
      GoodAgrees(s, m, d);
    }
    forall l, f: Functor | f.c == s.nextId
      ensures Count(m, l, f) == 0
    {
      assert Count(m, l, f) == Count(s, l, f);
    }
  }

  lemma MadeKeepsCore(s: State, io: LoopId)
    requires Core(s) && io in s.loops && s.nextId !in s.conns
    ensures Core(Made(s, io))
  {
    var m := Made(s, io);
    forall l, f | l in m.loops && f in Outstanding(m.loops[l])
      ensures Placed(m, l, f)
    {
      assert Placed(s, l, f);
    }
    forall l | l in m.loops
      ensures Walks(m, l)
    {
      assert Walks(s, l);
      AcceptWalks(s, m, l);
    }
  }

  lemma AcceptKeepsInv(s: State, io: LoopId)
    requires Inv(s) && Enabled(s, AcceptStep(io))
    ensures Inv(Accept(s, io))
  {
    if io == s.base {
      AcceptHere(s);
    } else {
      AcceptThere(s, io);
    }
  }

  lemma AcceptHere(s: State)
    requires Inv(s)
    ensures Inv(Accept(s, s.base))
  {
    var c := s.nextId;
    var m := Made(s, s.base);
    var k := ConnectEstablished(NEW_CONN);
    MadeKeeps(s, s.base);
    assert Count(m, s.base, DoEstablish(c)) == 0 && Count(m, s.base, DoRemove(c)) == 0;
    assert Count(m, s.base, DoDestroy(c)) == 0 && Count(m, s.base, DoHalfClose(c)) == 0;
    SetConnCounts(m, c, k);
    FunctorOnConn(m, c, k);
  }

  lemma AcceptThere(s: State, io: LoopId)
    requires Inv(s) && io in s.loops && io != s.base
    ensures Inv(Accept(s, io))
  {
    var c := s.nextId;
    var m := Made(s, io);
    MadeKeeps(s, io);
    PostKeepsCore(m, io, DoEstablish(c));
    PostKeepsOthers(m, io, DoEstablish(c));
    PostCounts(m, io, DoEstablish(c));
    InvFromOthers(Accept(s, io), c);
  }

  lemma AcceptWalks(s: State, m: State, l: LoopId)
    requires l in s.loops && Walks(s, l) && m.loops == s.loops
    requires forall c :: c in s.conns && c in s.home ==>
               c in m.conns && c in m.home && m.conns[c] == s.conns[c] && m.home[c] == s.home[c]
    ensures Walks(m, l)
  {
    var active := match s.loops[l].pc
                  case Walking(a) => a
                  case Handling(_, _, a) => a
                  case _ => [];
    forall d | d in active
      ensures Ready(m, l, d)
    {
      assert Ready(s, l, d);
    }
  }

  lemma StepKeepsInv(s: State, step: Step)
    requires Inv(s) && Enabled(s, step)
    ensures Inv(Next(s, step))
  {
    match step
    case AcceptStep(io) => AcceptKeepsInv(s, io);
    case CallbackStep(l, r, w) => CallbackKeepsInv(s, l, r, w);
    case FunctorStep(l, w) => FunctorKeepsInv(s, l, w);
    case OwnSend(_, _, _) => UserStepsKeepInv(s, step);
    case OwnShutdown(_) => UserStepsKeepInv(s, step);
    case OtherShutdown(c) => OtherShutdownKeepsInv(s, c);
    case OtherSend(c, data) => UserPostKeepsInv(s, c, data);
    case OtherShutdownPosts(c) => ShutdownPostsKeepInv(s, c);
    case PollReturn(l, active) => PollKeepsInv(s, l, active);
    case HandleStep(l, revents) => HandleKeepsInv(s, l, revents);
    case _ => LoopStepsKeepInv(s, step);
  }

  lemma {:induction false} Reachable(s: State, steps: seq<Step>)
    requires Initial(s) && After(s, steps).Some?
    ensures Inv(After(s, steps).value)
  {
    if steps != [] {
      Reachable(s, steps[..|steps| - 1]);
      StepKeepsInv(After(s, steps[..|steps| - 1]).value, steps[|steps| - 1]);
    }
  }

  // ---------------------------------------------------------------------------------------------
  // Each connection of the server is a connection

  /** What a step means for one connection: at most one event of its own history. */
  function EventOf(s: State, step: Step, c: ConnId): (events: seq<Event>)
    requires Enabled(s, step)
    ensures |events| <= 1
  {
    match step
    case AcceptStep(io) => if c == s.nextId && io == s.base then [Establish] else []
    case CallbackStep(l, r, w) =>
      var pc := s.loops[l].pc;
      if pc.c != c then [] else CallbackEvent(pc.callbacks[0], r, w)
    case FunctorStep(l, w) => FunctorEvent(s.loops[l].pc.batch[0], w, c)
    case OwnSend(d, data, w) => if d == c && s.conns[c].state == Connected then [Send(data, w)] else []
    case OwnShutdown(d) => if d == c then [ShutdownCall(true)] else []
    case OtherShutdown(d) => if d == c then [ShutdownCall(false)] else []
    case _ => []
  }

  function CallbackEvent(cb: Callback, r: ReadResult, w: WriteResult): (events: seq<Event>)
    ensures |events| <= 1
  {
    match cb
    case CloseCallback => [Close]
    case ReadCallback => if r == EndOfStream then [Close] else []
    case WriteCallback => [Writable(w)]
  }

  function FunctorEvent(f: Functor, w: WriteResult, c: ConnId): (events: seq<Event>)
    ensures |events| <= 1
  {
    if f.c != c then []
    else
      match f
      case DoEstablish(_) => [Establish]
      case DoDestroy(_) => [Event.DestroyRuns]
      case DoRemove(_) => []
      case DoSend(_, data) => [Send(data, w)]
      case DoHalfClose(_) => [ShutdownRuns]
  }

  /** The event, if there is one, is possible, and takes the connection where the step takes it. */
  ghost predicate Leads(k: Conn, events: seq<Event>, k': Conn) {
    if events == [] then k' == k else |events| == 1 && Possible(k, events[0]) && k' == Happen(k, events[0])
  }

  lemma StepRefines(s: State, step: Step, c: ConnId)
    requires Inv(s) && Enabled(s, step) && c in s.conns
    ensures c in Next(s, step).conns && Leads(s.conns[c], EventOf(s, step, c), Next(s, step).conns[c])
  {
    assert Good(s, c);
    match step
    case AcceptStep(io) => AcceptAdds(s, io);
    case CallbackStep(l, r, w) => CallbackRefines(s, l, r, w, c);
    case FunctorStep(l, w) => FunctorRefines(s, l, w, c);
    case _ => UserRefines(s, step, c);
  }

  /** Callers on any thread, and steps that touch no connection. */
  lemma UserRefines(s: State, step: Step, c: ConnId)
    requires Enabled(s, step) && c in s.conns && !step.CallbackStep? && !step.FunctorStep? && !step.AcceptStep?
    ensures c in Next(s, step).conns && Leads(s.conns[c], EventOf(s, step, c), Next(s, step).conns[c])
  {
  }

  /** A new connection takes a new number. */
  lemma AcceptAdds(s: State, io: LoopId)
    requires io in s.loops
    ensures Accept(s, io).conns == s.conns[s.nextId := if io == s.base then ConnectEstablished(NEW_CONN) else NEW_CONN]
  {
  }

  lemma CallbackRefines(s: State, l: LoopId, r: ReadResult, w: WriteResult, c: ConnId)
    requires Inv(s) && Enabled(s, CallbackStep(l, r, w)) && c in s.conns
    ensures var step := CallbackStep(l, r, w);
            c in Next(s, step).conns && Leads(s.conns[c], EventOf(s, step, c), Next(s, step).conns[c])
  {
    CallbackTaken(s, l);
    CallbackStepConns(s, l, r, w);
  }

  lemma CallbackStepConns(s: State, l: LoopId, r: ReadResult, w: WriteResult)
    requires Enabled(s, CallbackStep(l, r, w)) && Sound(s, s.loops[l].pc.c)
    ensures var pc := s.loops[l].pc;
            var events := CallbackEvent(pc.callbacks[0], r, w);
            Next(s, CallbackStep(l, r, w)).conns ==
            if events == [] then s.conns else s.conns[pc.c := Happen(s.conns[pc.c], events[0])]
  {
    var pc := s.loops[l].pc;
    CallbackConns(SetPc(s, l, pc.(callbacks := pc.callbacks[1..])), pc.c, pc.callbacks[0], r, w);
  }

  /** A callback changes no connection but its own. */
  lemma CallbackConns(s: State, c: ConnId, cb: Callback, r: ReadResult, w: WriteResult)
    requires Sound(s, c)
    ensures var n := RunCallback(s, c, cb, r, w);
            n.conns ==
            match cb
            case WriteCallback => s.conns[c := HandleWrite(s.conns[c], w)]
            case CloseCallback => s.conns[c := HandleClose(s.conns[c])]
            case ReadCallback => if r == EndOfStream then s.conns[c := HandleClose(s.conns[c])] else s.conns
  {
    if cb != WriteCallback {
      assert CloseConn(s, c).conns == s.conns[c := HandleClose(s.conns[c])];
    }
  }

  lemma FunctorRefines(s: State, l: LoopId, w: WriteResult, c: ConnId)
    requires Inv(s) && Enabled(s, FunctorStep(l, w)) && c in s.conns
    ensures var step := FunctorStep(l, w);
            c in Next(s, step).conns && Leads(s.conns[c], EventOf(s, step, c), Next(s, step).conns[c])
  {
    var f := s.loops[l].pc.batch[0];
    FunctorIsPossible(s, l, w);
    FunctorConns(Popped(s, l), f, w);
  }

  /** A functor comes when its event is possible. */
  lemma FunctorIsPossible(s: State, l: LoopId, w: WriteResult)
    requires Inv(s) && Enabled(s, FunctorStep(l, w))
    ensures var f := s.loops[l].pc.batch[0];
            && Sound(s, f.c)
            && forall e :: e in FunctorEvent(f, w, f.c) ==> Possible(s.conns[f.c], e)
  {
    PopKeepsCore(s, l);
    PopCounts(s, l);
    assert Good(s, s.loops[l].pc.batch[0].c);
    PlacedIsPossible(s, l, s.loops[l].pc.batch[0], w);
  }

  lemma PlacedIsPossible(s: State, l: LoopId, f: Functor, w: WriteResult)
    requires Placed(s, l, f) && Count(s, l, f) > 0 && Good(s, f.c)
    ensures forall e :: e in FunctorEvent(f, w, f.c) ==> Possible(s.conns[f.c], e)
  {
    match f
    case DoEstablish(_) =>
    case DoDestroy(_) =>
    case DoRemove(_) =>
    case DoSend(_, _) =>
    case DoHalfClose(_) =>
  }

  /** It changes no connection but its own. */
  lemma FunctorConns(s: State, f: Functor, w: WriteResult)
    requires Sound(s, f.c)
    ensures RunFunctor(s, f, w).conns ==
            var events := FunctorEvent(f, w, f.c);
            if events == [] then s.conns else s.conns[f.c := Happen(s.conns[f.c], events[0])]
  {
    if f.DoRemove? {
      assert RemoveInLoop(s, f.c).conns == s.conns;
    }
  }

  /** What a run has meant for one connection. */
  function Trace(s0: State, steps: seq<Step>, c: ConnId): (events: seq<Event>)
    requires After(s0, steps).Some?
  {
    if steps == [] then []
    else
      var init := steps[..|steps| - 1];
      Trace(s0, init, c) + EventOf(After(s0, init).value, steps[|steps| - 1], c)
  }

  lemma NothingBefore(s: State, step: Step, c: ConnId)
    requires Inv(s) && Enabled(s, step) && c !in s.conns
    ensures c in Next(s, step).conns ==> step.AcceptStep? && c == s.nextId
    ensures !(step.AcceptStep? && c == s.nextId) ==> EventOf(s, step, c) == []
  {
    match step
    case AcceptStep(io) => AcceptAdds(s, io);
    case CallbackStep(l, r, w) =>
      CallbackTaken(s, l);
      CallbackStepConns(s, l, r, w);
    case FunctorStep(l, w) =>
      FunctorIsPossible(s, l, w);
      FunctorConns(Popped(s, l), s.loops[l].pc.batch[0], w);
    case _ =>
  }

  /** The connection is where its events take a new one. */
  ghost predicate Refined(s: State, events: seq<Event>, c: ConnId) {
    if c in s.conns then History(NEW_CONN, events) == Some(s.conns[c]) else events == []
  }

  lemma RefinedOneMore(s: State, step: Step, events: seq<Event>, c: ConnId)
    requires Inv(s) && Enabled(s, step) && Refined(s, events, c)
    ensures Refined(Next(s, step), events + EventOf(s, step, c), c)
  {
    if c in s.conns {
      StepRefines(s, step, c);
      HistoryOneMore(NEW_CONN, events, EventOf(s, step, c), s.conns[c], Next(s, step).conns[c]);
    } else {
      NothingBefore(s, step, c);
      if c in Next(s, step).conns {
        NewIsEstablished(s, step, c);
      }
    }
  }

  /** In every interleaving of the whole server, each connection is where its own events take a new
      connection; so everything proved of one connection's histories holds of it here. */
  lemma {:induction false} ServerRefinesConnection(s0: State, steps: seq<Step>, c: ConnId)
    requires Initial(s0) && After(s0, steps).Some?
    ensures Refined(After(s0, steps).value, Trace(s0, steps, c), c)
  {
    if steps != [] {
      var init := steps[..|steps| - 1];
      ServerRefinesConnection(s0, init, c);
      Reachable(s0, init);
      RefinedOneMore(After(s0, init).value, steps[|steps| - 1], Trace(s0, init, c), c);
    }
  }

  lemma NewIsEstablished(s: State, step: Step, c: ConnId)
    requires Inv(s) && Enabled(s, step) && c !in s.conns && c in Next(s, step).conns && step.AcceptStep? && c == s.nextId
    ensures History(NEW_CONN, [] + EventOf(s, step, c)) == Some(Next(s, step).conns[c])
  {
    AcceptAdds(s, step.io);
    assert [] + EventOf(s, step, c) == EventOf(s, step, c);
    if EventOf(s, step, c) != [] {
      assert EventOf(s, step, c)[1..] == [];
    }
  }

  lemma {:induction false} HistoryOneMore(k: Conn, before: seq<Event>, events: seq<Event>, m: Conn, n: Conn)
    requires History(k, before) == Some(m) && Leads(m, events, n)
    ensures History(k, before + events) == Some(n)
    decreases |before|
  {
    if before == [] {
      assert before + events == events;
      if events != [] {
        assert events[1..] == [];
      }
    } else {
      assert (before + events)[0] == before[0] && (before + events)[1..] == before[1..] + events;
      HistoryOneMore(Happen(k, before[0]), before[1..], events, m, n);
    }
  }

  // ---------------------------------------------------------------------------------------------
  // Theorems over every interleaving

  /** No assertion of the source fails and no dead pointer is followed: connections are established while
      connecting and closed while open, `connections_` always has the entry to be erased, and a channel
      is removed without interest and while registered. */
  lemma NoAssertionFails(s0: State, steps: seq<Step>)
    requires Initial(s0) && After(s0, steps).Some?
    ensures !After(s0, steps).value.crashed
  {
    Reachable(s0, steps);
  }

  /** A connection whose channel is registered is held by `connections_`, or by exactly one
      connect_destroyed on its way to the connection's loop, never by both. */
  lemma RegisteredIsHeld(s0: State, steps: seq<Step>, c: ConnId)
    requires Initial(s0) && After(s0, steps).Some? && c in After(s0, steps).value.conns
    ensures var s := After(s0, steps).value;
            && c in s.home
            && (s.conns[c].index != New ==>
                  if c in s.connections then Count(s, s.home[c], DoDestroy(c)) == 0
                  else Count(s, s.home[c], DoDestroy(c)) == 1)
            && (c !in s.connections ==> s.conns[c].state == Disconnected)
  {
    Reachable(s0, steps);
    assert Good(After(s0, steps).value, c);
  }

  /** connect_established and connect_destroyed run at most once each, in this order, and the channel is
      gone for good after the second. */
  lemma DestroyedOnceAfterEstablished(s0: State, steps: seq<Step>, c: ConnId)
    requires Initial(s0) && After(s0, steps).Some? && c in After(s0, steps).value.conns
    ensures var k := After(s0, steps).value.conns[c];
            && k.destroyed <= k.established <= 1
            && (k.destroyed == 1 ==> k.state == Disconnected && k.index == New)
  {
    Reachable(s0, steps);
    assert Good(After(s0, steps).value, c);
  }

  /** A channel is removed only while its loop is calling functors, never while the loop walks its active
      channels. */
  lemma RemovedOnlyBetweenWalks(s0: State, steps: seq<Step>, step: Step, c: ConnId)
    requires Initial(s0) && After(s0, steps).Some? && Enabled(After(s0, steps).value, step)
    requires c in After(s0, steps).value.conns && After(s0, steps).value.conns[c].index != New
    ensures var s := After(s0, steps).value;
            && c in s.home && s.home[c] in s.loops && c in Next(s, step).conns
            && (Next(s, step).conns[c].index == New ==> s.loops[s.home[c]].pc.Calling?)
  {
    Reachable(s0, steps);
    var s := After(s0, steps).value;
    StepKeepsInv(s, step);
    assert Good(s, c);
    if step.FunctorStep? {
      var f := s.loops[step.l].pc.batch[0];
      assert f in Outstanding(s.loops[step.l]) && Placed(s, step.l, f);
    }
    IndexKept(s, step, c);
  }

  lemma IndexKept(s: State, step: Step, c: ConnId)
    requires Inv(s) && Enabled(s, step) && c in s.conns && s.conns[c].index != New
    ensures c in Next(s, step).conns
    ensures Next(s, step).conns[c].index == New ==> step.FunctorStep? && s.loops[step.l].pc.batch[0] == DoDestroy(c)
  {
    StepRefines(s, step, c);
    assert Good(s, c);
    if EventOf(s, step, c) != [] {
      EventStates(s.conns[c], EventOf(s, step, c)[0]);
    }
  }

  /** The raw pointers a loop still has to follow are to channels that are registered and to connections
      that are held. */
  lemma ActiveChannelsAreAlive(s0: State, steps: seq<Step>, l: LoopId, c: ConnId)
    requires Initial(s0) && After(s0, steps).Some? && l in After(s0, steps).value.loops
    requires var pc := After(s0, steps).value.loops[l].pc;
             (pc.Walking? && c in pc.active) || (pc.Handling? && (c == pc.c || c in pc.active))
    ensures var s := After(s0, steps).value;
            && c in s.conns && c in s.home && s.home[c] == l && s.conns[c].index != New
            && (c in s.connections || Count(s, l, DoDestroy(c)) == 1)
  {
    Reachable(s0, steps);
    var s := After(s0, steps).value;
    assert Walks(s, l);
    if s.loops[l].pc.Walking? || c != s.loops[l].pc.c {
      assert Ready(s, l, c);
    }
    assert Good(s, c);
  }

  /** Every functor waits on the loop its code asserts to run on. */
  lemma FunctorsRunAtHome(s0: State, steps: seq<Step>, l: LoopId, f: Functor)
    requires Initial(s0) && After(s0, steps).Some? && l in After(s0, steps).value.loops
    requires f in Outstanding(After(s0, steps).value.loops[l])
    ensures var s := After(s0, steps).value;
            f.c in s.home && l == if f.DoRemove? then s.base else s.home[f.c]
  {
    Reachable(s0, steps);
    assert Placed(After(s0, steps).value, l, f);
  }

  /** In the whole server too, the bytes written are what the kernel's answers say it took, and with the
      bytes buffered they are the accepted messages in order; writing is enabled exactly while data waits
      on an open connection; SHUT_WR never overtakes it; and a half-close is never forgotten. */
  lemma StreamsSurviveTheServer(s0: State, steps: seq<Step>, c: ConnId)
    requires Initial(s0) && After(s0, steps).Some? && c in After(s0, steps).value.conns
    ensures var s := After(s0, steps).value;
            var k := s.conns[c];
            var events := Trace(s0, steps, c);
            && k.sent == Wire(NEW_CONN, events) && k.sent + k.output == Accepts(NEW_CONN, events) && !k.dirtyShut
            && (k.state != Disconnected ==> (k.writing <==> k.output != ""))
            && c in s.home
            && (k.state == Disconnecting && c !in s.posting && Count(s, s.home[c], DoHalfClose(c)) == 0 ==>
                  k.shutWr || (k.writing && k.output != ""))
  {
    Reachable(s0, steps);
    assert Good(After(s0, steps).value, c);
    ServerRefinesConnection(s0, steps, c);
    WrittenIsWhatTheKernelTook(Trace(s0, steps, c));
  }

  lemma AfterAppend(s: State, a: seq<Step>, b: seq<Step>)
    requires After(s, a).Some?
    ensures After(s, a + b) == After(After(s, a).value, b)
    decreases |b|
  {
    if b == [] {
      assert a + b == a;
    } else {
      var init, last := b[..|b| - 1], b[|b| - 1];
      assert (a + b)[..|a + b| - 1] == a + init && (a + b)[|a + b| - 1] == last;
      AfterAppend(s, a, init);
    }
  }

  /** One more step in front of a run. */
  lemma Before(s: State, step: Step, m: State, steps: seq<Step>)
    requires Enabled(s, step) && Next(s, step) == m
    ensures After(s, [step] + steps) == After(m, steps)
  {
    assert [step][..0] == [];
    AfterAppend(s, [step], steps);
  }
}
