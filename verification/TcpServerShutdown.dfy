/**
 When SHUT_WR can overtake data in the server of src/net/tcp_server.cpp: exactly on a connection that has
 been closed under its queued half-close; and a run in which it does.
 */
module TcpServerShutdown {
  import opened Bytes
  import EpollPollers
  import opened TcpConnections
  import opened TcpServers

  /** If a step issues SHUT_WR, data is left behind it exactly when the connection was closed with data
      in its buffer. */
  predicate ShutsAsClosed(k: Conn, k': Conn) {
    !k.shutWr && k'.shutWr ==> (k'.output != "" <==> k.state == Disconnected && k.output != "")
  }

  /** In every reachable state and for every step: SHUT_WR first goes out with data left exactly when the
      connection has been closed under it. */
  lemma ShutWithDataIff(s0: State, steps: seq<Step>, step: Step, c: ConnId)
    requires Initial(s0) && After(s0, steps).Some? && Enabled(After(s0, steps).value, step)
    requires c in After(s0, steps).value.conns && !After(s0, steps).value.conns[c].shutWr
    ensures var s := After(s0, steps).value;
            && c in Next(s, step).conns
            && (Next(s, step).conns[c].shutWr ==>
                  (Next(s, step).conns[c].output != "" <==> s.conns[c].state == Disconnected && s.conns[c].output != ""))
  {
    Reachable(s0, steps);
    StepShuts(After(s0, steps).value, step, c);
  }

  lemma StepShuts(s: State, step: Step, c: ConnId)
    requires Inv(s) && Enabled(s, step) && c in s.conns
    ensures c in Next(s, step).conns && ShutsAsClosed(s.conns[c], Next(s, step).conns[c])
  {
    StepRefines(s, step, c);
    assert Good(s, c);
    if EventOf(s, step, c) != [] {
      EventShuts(s.conns[c], EventOf(s, step, c)[0]);
    }
  }

  lemma EventShuts(k: Conn, e: Event)
    requires ConnOk(k) && Possible(k, e)
    ensures ShutsAsClosed(k, Happen(k, e))
  {
  }

  // ---------------------------------------------------------------------------------------------
  // A run in which SHUT_WR overtakes data

  /** A server with one loop and one connection. */
  function OneConn(pc: Pc, pending: seq<Functor>, k: Conn, held: set<ConnId>): (s: State) {
    State(0, map[0 := Loop(pc, pending)], map[1 := 0], map[1 := k], held, 2, multiset{}, false)
  }

  lemma OneConnMoves(pc: Pc, pending: seq<Functor>, k: Conn, held: set<ConnId>, pc': Pc)
    ensures SetPc(OneConn(pc, pending, k, held), 0, pc') == OneConn(pc', pending, k, held)
  {
  }

  lemma OneConnPosts(pc: Pc, pending: seq<Functor>, k: Conn, held: set<ConnId>, f: Functor)
    ensures Post(OneConn(pc, pending, k, held), 0, f) == OneConn(pc, pending + [f], k, held)
  {
  }

  lemma OneConnChanges(pc: Pc, pending: seq<Functor>, k: Conn, held: set<ConnId>, k': Conn)
    requires !k'.crashed
    ensures SetConn(OneConn(pc, pending, k, held), 1, k') == OneConn(pc, pending, k', held)
  {
  }

  const EMPTY_SERVER := State(0, map[0 := Loop(Polling, [])], map[], map[], {}, 1, multiset{}, false)

  const HANG_UP := Revents(false, false, false, true, false, false)

  /** A connection just established, and one with a byte that the kernel would not take. */
  const FRESH_CONN :=
    Conn(Connected, true, false, EpollPollers.Added, "", false, 0, "", "", false, 1, 0, false)

  const STUCK :=
    Conn(Connected, true, true, EpollPollers.Added, "x", false, 0, "", "x", false, 1, 0, false)

  const STUCK_AND_SHUT := STUCK.(state := Disconnecting, inFlight := 1)

  const CLOSED := HandleClose(STUCK_AND_SHUT)

  /** The run: a connection is accepted and stuck with a byte, another thread calls shutdown(), the peer
      hangs up, and only then the queued half-close runs. */
  const SHUT_LATE: seq<Step> := [FunctorStep(0, WouldBlock)]
  const HUNG_UP: seq<Step> :=
    [HandleStep(0, HANG_UP), CallbackStep(0, SomeBytes, WouldBlock), HandledStep(0), SwapStep(0)]
  const SHUT_FROM_OUTSIDE: seq<Step> := [OtherShutdown(1), OtherShutdownPosts(1)]
  const NEXT_POLL: seq<Step> := [SwapStep(0), BatchDone(0), PollReturn(0, [1])]
  const ACCEPT_AND_SEND: seq<Step> := [PollReturn(0, []), AcceptStep(0), OwnSend(1, "x", WouldBlock)]

  /** SHUT_WR is then issued with the byte still in the buffer. */
  lemma ShutWithDataHappens() returns (steps: seq<Step>)
    ensures Initial(EMPTY_SERVER)
    ensures var r := After(EMPTY_SERVER, steps);
            r.Some? && 1 in r.value.conns && r.value.conns[1].shutWr && r.value.conns[1].output == "x"
  {
    AcceptAndSend();
    NextPoll();
    ShutFromOutside();
    HungUp();
    ShutLate();
    AfterAppend(EMPTY_SERVER, ACCEPT_AND_SEND, NEXT_POLL);
    AfterAppend(EMPTY_SERVER, ACCEPT_AND_SEND + NEXT_POLL, SHUT_FROM_OUTSIDE);
    AfterAppend(EMPTY_SERVER, ACCEPT_AND_SEND + NEXT_POLL + SHUT_FROM_OUTSIDE, HUNG_UP);
    AfterAppend(EMPTY_SERVER, ACCEPT_AND_SEND + NEXT_POLL + SHUT_FROM_OUTSIDE + HUNG_UP, SHUT_LATE);
    steps := ACCEPT_AND_SEND + NEXT_POLL + SHUT_FROM_OUTSIDE + HUNG_UP + SHUT_LATE;
  }

  const WOKEN := EMPTY_SERVER.(loops := map[0 := Loop(Walking([]), [])])

  lemma AcceptAndSend()
    ensures After(EMPTY_SERVER, ACCEPT_AND_SEND) == Some(OneConn(Walking([]), [], STUCK, {1}))
  {
    AcceptRuns();
    SendSticks();
    Before(WOKEN, AcceptStep(0), OneConn(Walking([]), [], FRESH_CONN, {1}), [OwnSend(1, "x", WouldBlock)]);
    Before(EMPTY_SERVER, PollReturn(0, []), WOKEN, [AcceptStep(0), OwnSend(1, "x", WouldBlock)]);
    assert ACCEPT_AND_SEND == [PollReturn(0, [])] + [AcceptStep(0), OwnSend(1, "x", WouldBlock)];
    assert [AcceptStep(0), OwnSend(1, "x", WouldBlock)] == [AcceptStep(0)] + [OwnSend(1, "x", WouldBlock)];
  }

  lemma AcceptRuns()
    ensures Enabled(EMPTY_SERVER, PollReturn(0, [])) && Next(EMPTY_SERVER, PollReturn(0, [])) == WOKEN
    ensures Enabled(WOKEN, AcceptStep(0)) && Next(WOKEN, AcceptStep(0)) == OneConn(Walking([]), [], FRESH_CONN, {1})
  {
  }

  lemma SendSticks()
    ensures After(OneConn(Walking([]), [], FRESH_CONN, {1}), [OwnSend(1, "x", WouldBlock)])
            == Some(OneConn(Walking([]), [], STUCK, {1}))
  {
    var s := OneConn(Walking([]), [], FRESH_CONN, {1});
    OneConnChanges(Walking([]), [], FRESH_CONN, {1}, STUCK);
    assert "x"[..0] == "" && "x"[0..] == "x" && SendInLoop(FRESH_CONN, "x", WouldBlock) == STUCK;
    Before(s, OwnSend(1, "x", WouldBlock), OneConn(Walking([]), [], STUCK, {1}), []);
    assert [OwnSend(1, "x", WouldBlock)] + [] == [OwnSend(1, "x", WouldBlock)];
  }

  lemma NextPoll()
    ensures After(OneConn(Walking([]), [], STUCK, {1}), NEXT_POLL) == Some(OneConn(Walking([1]), [], STUCK, {1}))
  {
    OneConnMoves(Walking([]), [], STUCK, {1}, Calling([]));
    OneConnMoves(Calling([]), [], STUCK, {1}, Polling);
    OneConnMoves(Polling, [], STUCK, {1}, Walking([1]));
    Before(OneConn(Polling, [], STUCK, {1}), PollReturn(0, [1]), OneConn(Walking([1]), [], STUCK, {1}), []);
    Before(OneConn(Calling([]), [], STUCK, {1}), BatchDone(0), OneConn(Polling, [], STUCK, {1}), [PollReturn(0, [1])]);
    Before(OneConn(Walking([]), [], STUCK, {1}), SwapStep(0), OneConn(Calling([]), [], STUCK, {1}),
           [BatchDone(0), PollReturn(0, [1])]);
    assert NEXT_POLL == [SwapStep(0)] + [BatchDone(0), PollReturn(0, [1])];
    assert [BatchDone(0), PollReturn(0, [1])] == [BatchDone(0)] + [PollReturn(0, [1])];
  }

  lemma ShutFromOutside()
    ensures After(OneConn(Walking([1]), [], STUCK, {1}), SHUT_FROM_OUTSIDE)
            == Some(OneConn(Walking([1]), [DoHalfClose(1)], STUCK_AND_SHUT, {1}))
  {
    var s := OneConn(Walking([1]), [], STUCK, {1});
    var flying := OneConn(Walking([1]), [], STUCK_AND_SHUT, {1}).(posting := multiset{1});
    assert s.posting + multiset{1} == multiset{1} && multiset{1} - multiset{1} == multiset{};
    assert Next(s, OtherShutdown(1)) == flying;
    OneConnPosts(Walking([1]), [], STUCK_AND_SHUT, {1}, DoHalfClose(1));
    assert [] + [DoHalfClose(1)] == [DoHalfClose(1)];
    Before(flying, OtherShutdownPosts(1), OneConn(Walking([1]), [DoHalfClose(1)], STUCK_AND_SHUT, {1}), []);
    Before(s, OtherShutdown(1), flying, [OtherShutdownPosts(1)]);
  }

  lemma HungUp()
    ensures After(OneConn(Walking([1]), [DoHalfClose(1)], STUCK_AND_SHUT, {1}), HUNG_UP)
            == Some(OneConn(Calling([DoHalfClose(1), DoDestroy(1)]), [], CLOSED, {}))
  {
    var handled: seq<Step> := [HandledStep(0), SwapStep(0)];
    var closing := OneConn(Handling(1, [CloseCallback], []), [DoHalfClose(1)], STUCK_AND_SHUT, {1});
    HangUpSeen();
    CloseRuns();
    ClosedIsSwapped();
    Before(closing, CallbackStep(0, SomeBytes, WouldBlock),
           OneConn(Handling(1, [], []), [DoHalfClose(1), DoDestroy(1)], CLOSED, {}), handled);
    Before(OneConn(Walking([1]), [DoHalfClose(1)], STUCK_AND_SHUT, {1}), HandleStep(0, HANG_UP), closing,
           [CallbackStep(0, SomeBytes, WouldBlock)] + handled);
    assert HUNG_UP == [HandleStep(0, HANG_UP)] + ([CallbackStep(0, SomeBytes, WouldBlock)] + handled);
  }

  lemma HangUpSeen()
    ensures var s := OneConn(Walking([1]), [DoHalfClose(1)], STUCK_AND_SHUT, {1});
            Enabled(s, HandleStep(0, HANG_UP))
            && Next(s, HandleStep(0, HANG_UP))
               == OneConn(Handling(1, [CloseCallback], []), [DoHalfClose(1)], STUCK_AND_SHUT, {1})
  {
    assert Callbacks(HANG_UP) == [CloseCallback] && [1][1..] == [];
    OneConnMoves(Walking([1]), [DoHalfClose(1)], STUCK_AND_SHUT, {1}, Handling(1, [CloseCallback], []));
  }

  lemma ClosedIsSwapped()
    ensures var fs := [DoHalfClose(1), DoDestroy(1)];
            After(OneConn(Handling(1, [], []), fs, CLOSED, {}), [HandledStep(0), SwapStep(0)])
            == Some(OneConn(Calling(fs), [], CLOSED, {}))
  {
    var fs := [DoHalfClose(1), DoDestroy(1)];
    OneConnMoves(Handling(1, [], []), fs, CLOSED, {}, Walking([]));
    Before(OneConn(Walking([]), fs, CLOSED, {}), SwapStep(0), OneConn(Calling(fs), [], CLOSED, {}), []);
    Before(OneConn(Handling(1, [], []), fs, CLOSED, {}), HandledStep(0), OneConn(Walking([]), fs, CLOSED, {}), [SwapStep(0)]);
    assert [SwapStep(0)] + [] == [SwapStep(0)] && [HandledStep(0)] + [SwapStep(0)] == [HandledStep(0), SwapStep(0)];
  }

  lemma CloseRuns()
    ensures var s := OneConn(Handling(1, [CloseCallback], []), [DoHalfClose(1)], STUCK_AND_SHUT, {1});
            Next(s, CallbackStep(0, SomeBytes, WouldBlock))
            == OneConn(Handling(1, [], []), [DoHalfClose(1), DoDestroy(1)], CLOSED, {})
  {
    var handling := Handling(1, [], []);
    OneConnMoves(Handling(1, [CloseCallback], []), [DoHalfClose(1)], STUCK_AND_SHUT, {1}, handling);
    OneConnChanges(handling, [DoHalfClose(1)], STUCK_AND_SHUT, {1}, CLOSED);
    OneConnPosts(handling, [DoHalfClose(1)], CLOSED, {}, DoDestroy(1));
    var s := OneConn(handling, [DoHalfClose(1)], CLOSED, {1});
    assert s.(connections := s.connections - {1}) == OneConn(handling, [DoHalfClose(1)], CLOSED, {});
    assert [DoHalfClose(1)] + [DoDestroy(1)] == [DoHalfClose(1), DoDestroy(1)];
    assert [CloseCallback][1..] == [];
  }

  lemma ShutLate()
    ensures var r := After(OneConn(Calling([DoHalfClose(1), DoDestroy(1)]), [], CLOSED, {}), SHUT_LATE);
            r.Some? && 1 in r.value.conns && r.value.conns[1].shutWr && r.value.conns[1].output == "x"
  {
    var s := OneConn(Calling([DoHalfClose(1), DoDestroy(1)]), [], CLOSED, {});
    OneConnMoves(Calling([DoHalfClose(1), DoDestroy(1)]), [], CLOSED, {}, Calling([DoDestroy(1)]));
    OneConnChanges(Calling([DoDestroy(1)]), [], CLOSED, {}, Happen(CLOSED, ShutdownRuns));
    Before(s, FunctorStep(0, WouldBlock), OneConn(Calling([DoDestroy(1)]), [], Happen(CLOSED, ShutdownRuns), {}), []);
  }
}
