/**
 One connection of src/net/tcp_connection.cpp: its state, its channel's interest and registration, and
 its output buffer, as a value with one function per handler, and as the object that runs them over a
 `Buffer`.

 What the kernel answers to a write is a parameter.  An assertion of the source that does not hold sets
 `crashed`.
 */
module TcpConnections {
  import opened Bytes
  import opened ByteBuffer
  import opened EpollPollers

  datatype ConnState = Disconnected | Connecting | Connected | Disconnecting

  /** The outcome of ::write; a count is never more than was offered. */
  datatype WriteResult = Wrote(n: nat) | WouldBlock | PipeOrReset | OtherError

  datatype Conn = Conn(
    state: ConnState,
    reading: bool, writing: bool, index: Index,  // the channel
    output: string,                              // output_buffer_
    shutWr: bool,                                // SHUT_WR has been issued
    inFlight: nat,                               // shutdown() calls between their exchange and their run_in_loop
    sent: string,                                // bytes the kernel has taken, in order
    accepted: string,                            // the messages accepted, in order
    dirtyShut: bool,                             // SHUT_WR was issued with data left on a connection still open
    established: nat, destroyed: nat,            // runs of connect_established and connect_destroyed
    crashed: bool)

  const NEW_CONN :=
    Conn(Connecting, false, false, New, "", false, 0, "", "", false, 0, 0, false)

  // ---------------------------------------------------------------------------------------------
  // The handlers

  /** The channel's mask is changed and the poller told, with the effect proved for the poller. */
  function SetInterest(k: Conn, reading: bool, writing: bool): (k': Conn) {
    k.(reading := reading, writing := writing,
       index := if k.index == Added && !reading && !writing then Deleted else Added)
  }

  function ConnectEstablished(k: Conn): (k': Conn) {
    if k.state != Connecting then k.(crashed := true)
    else SetInterest(k, true, k.writing).(state := Connected, established := k.established + 1)
  }

  function ShutDownInLoop(k: Conn): (k': Conn) {
    if k.writing then k
    else k.(shutWr := true, dirtyShut := k.dirtyShut || (k.output != "" && k.state != Disconnected))
  }

  /** The in-loop send.  A direct write is tried only when nothing is queued before it; what the kernel
      does not take is buffered, unless the peer is gone. */
  function SendInLoop(k: Conn, data: string, w: WriteResult): (k': Conn) {
    if k.state == Disconnected then k
    else
      var direct := !k.writing && k.output == "";
      if direct && w == PipeOrReset then k
      else
        var n := if direct then Taken(w, data) else 0;
        var r := k.(sent := k.sent + data[..n], output := k.output + data[n..], accepted := k.accepted + data);
        if n < |data| && !k.writing then SetInterest(r, k.reading, true) else r
  }

  /** How many bytes of `data` the kernel took. */
  function Taken(w: WriteResult, data: string): (n: nat)
    ensures n <= |data|
  {
    if w.Wrote? then if w.n <= |data| then w.n else |data| else 0
  }

  /** How many bytes of a message a send leaves to the buffer. */
  function Unsent(k: Conn, data: string, w: WriteResult): (n: nat)
    ensures |SendInLoop(k, data, w).output| == |k.output| + n
  {
    var direct := !k.writing && k.output == "";
    if k.state == Disconnected || (direct && w == PipeOrReset) then 0
    else |data| - if direct then Taken(w, data) else 0
  }

  function HandleWrite(k: Conn, w: WriteResult): (k': Conn) {
    if !k.writing then k
    else
      var n := Taken(w, k.output);
      if n == 0 then k
      else
        var r := k.(sent := k.sent + k.output[..n], output := Drop(k.output, n));
        if r.output != "" then r
        else
          var q := SetInterest(r, k.reading, false);
          if k.state == Disconnecting then ShutDownInLoop(q) else q
  }

  function HandleClose(k: Conn): (k': Conn) {
    if k.state != Connected && k.state != Disconnecting then k.(crashed := true)
    else SetInterest(k, false, false).(state := Disconnected)
  }

  /** connect_destroyed, down to the poller's own checks. */
  function ConnectDestroyed(k: Conn): (k': Conn) {
    var r := if k.state == Connected then SetInterest(k, false, false) else k;
    if r.reading || r.writing || r.index == New then r.(crashed := true)
    else r.(state := Disconnected, index := New, destroyed := k.destroyed + 1)
  }

  /** The atomic exchange at the head of shutdown(); the flag says whether the call goes on. */
  function Exchange(k: Conn): (r: (Conn, bool)) {
    (k.(state := Disconnecting), k.state == Connected)
  }

  /** shutdown(): the exchange and, from connected, the call that follows at once or is left in flight. */
  function ShutdownCalled(k: Conn, ownLoop: bool): (k': Conn) {
    var (r, goesOn) := Exchange(k);
    if !goesOn then r else if ownLoop then ShutDownInLoop(r) else r.(inFlight := r.inFlight + 1)
  }

  // ---------------------------------------------------------------------------------------------
  // What every handler keeps

  /** Nothing is lost, duplicated or reordered on the way to the socket. */
  predicate Conserved(k: Conn) {
    k.sent + k.output == k.accepted
  }

  /** While the connection is open, writing is enabled exactly when something is waiting to be sent. */
  predicate Drains(k: Conn) {
    && !k.dirtyShut
    && (k.state != Disconnected ==> (k.writing <==> k.output != ""))
  }

  /** The channel's interest and registration go with the state. */
  predicate Registered(k: Conn) {
    match k.state
    case Connecting => !k.reading && !k.writing && k.index == New && k.established == 0 && k.destroyed == 0
    case Disconnected =>
      !k.reading && !k.writing && k.index != Added && k.established == 1
      && k.destroyed == if k.index == New then 1 else 0
    case _ => k.reading && k.index == Added && k.established == 1 && k.destroyed == 0
  }

  predicate ConnOk(k: Conn) {
    !k.crashed && Conserved(k) && Drains(k) && Registered(k)
  }

  predicate Open(k: Conn) {
    k.state == Connected || k.state == Disconnecting
  }

  lemma SendKeeps(k: Conn, data: string, w: WriteResult)
    requires ConnOk(k) && k.state != Connecting
    ensures var r := SendInLoop(k, data, w);
            ConnOk(r) && r.state == k.state && r.shutWr == k.shutWr && r.inFlight == k.inFlight && r.index == k.index
            && (k.writing ==> r.writing)
  {
    if k.state != Disconnected {
      var n := if !k.writing && k.output == "" then Taken(w, data) else 0;
      SplitAppend(k.sent, k.output, data, n);
    }
  }

  function Kept(k: Conn, rest: string): (k': Conn) {
    var r := k.(output := k.output + rest);
    if k.writing then r else SetInterest(r, k.reading, true)
  }

  /** `n` bytes of a message to the socket, and the rest kept. */
  function Delivered(k: Conn, data: string, n: nat): (k': Conn)
    requires n <= |data|
  {
    var r := k.(sent := k.sent + data[..n], accepted := k.accepted + data);
    if n < |data| then Kept(r, data[n..]) else r
  }

  /** What a send that is not given up comes to. */
  lemma SendIs(k: Conn, data: string, w: WriteResult, n: nat)
    requires k.state != Disconnected && !(!k.writing && k.output == "" && w == PipeOrReset)
    requires n == if !k.writing && k.output == "" then Taken(w, data) else 0
    ensures SendInLoop(k, data, w) == Delivered(k, data, n) && Unsent(k, data, w) == |data| - n
  {
    assert n == |data| ==> k.output + data[n..] == k.output;
  }

  lemma SplitAppend(sent: string, output: string, data: string, n: nat)
    requires n <= |data| && (n == 0 || output == "")
    ensures sent + data[..n] + (output + data[n..]) == sent + output + data
  {
    assert data[..n] + data[n..] == data;
    if n == 0 {
      assert data[0..] == data && sent + data[..0] == sent;
    } else {
      assert "" + data[n..] == data[n..] && sent + "" == sent;
    }
  }

  lemma WriteKeeps(k: Conn, w: WriteResult)
    requires ConnOk(k)
    ensures var r := HandleWrite(k, w);
            && ConnOk(r) && r.state == k.state && r.inFlight == k.inFlight && r.index == k.index
            && (k.shutWr ==> r.shutWr)
            && (k.state == Disconnecting && k.writing ==> r.writing || r.shutWr)
  {
    if k.writing {
      var n := Taken(w, k.output);
      assert k.output[..n] + k.output[n..] == k.output;
      assert n == |k.output| ==> k.output[n..] == "";
      assert (k.sent + k.output[..n]) + k.output[n..] == k.sent + k.output;
    }
  }

  /** The last step of the teardown is safe exactly on a connection that is connected, or disconnected
      with its channel still registered: never on one that is only disconnecting. */
  lemma DestroySafeIff(k: Conn)
    requires ConnOk(k)
    ensures !ConnectDestroyed(k).crashed <==> k.state == Connected || (k.state == Disconnected && k.index != New)
  {
  }

  function MaskOf(reading: bool, writing: bool): (m: Mask)
    ensures m == NONE_EVENT <==> !reading && !writing
  {
    (if reading then READ_EVENT else NONE_EVENT) | (if writing then WRITE_EVENT else NONE_EVENT)
  }

  function FlagsOf(k: Conn): (m: Mask)
    ensures Says(m, k.reading, k.writing)
  {
    MaskOf(k.reading, k.writing)
  }

  /** The connection's two flags are the channel's mask: each change of interest it makes is one of the
      four calls. */
  lemma FlagsFollowMask<P>(c: P, k: Conn)
    ensures FlagsOf(SetInterest(k, true, k.writing)) == Masked(EnableReading(c), FlagsOf(k))
    ensures FlagsOf(SetInterest(k, k.reading, true)) == Masked(EnableWriting(c), FlagsOf(k))
    ensures FlagsOf(SetInterest(k, k.reading, false)) == Masked(DisableWriting(c), FlagsOf(k))
    ensures FlagsOf(SetInterest(k, false, false)) == Masked(DisableAll(c), FlagsOf(k))
  {
  }

  /** `SetInterest` is what the poller does to the channel's index when told of the new mask. */
  lemma InterestFollowsPoller<P>(p: Poller<P>, c: P, k: Conn, reading: bool, writing: bool)
    requires Inv(p) && c in p.chans && p.chans[c].index == k.index
    ensures UpdateChannel(SetEvents(p, c, MaskOf(reading, writing)), c).chans[c].index
            == SetInterest(k, reading, writing).index
  {
    assert Shadowed(p, c);
    UpdateEffect(p, c, MaskOf(reading, writing));
  }

  // ---------------------------------------------------------------------------------------------
  // Any history of one connection

  datatype Event =
    | Establish
    | Send(data: string, w: WriteResult)
    | Writable(w: WriteResult)
    | ShutdownCall(ownLoop: bool)
    | ShutdownRuns          // a call in flight reaches shut_down_in_loop
    | Close
    | DestroyRuns

  predicate Possible(k: Conn, e: Event) {
    match e
    case Establish => k.state == Connecting
    case Send(_, _) => k.state != Connecting
    case Writable(_) => true
    case ShutdownCall(_) => Open(k)
    case ShutdownRuns => k.inFlight > 0
    case Close => Open(k)
    case DestroyRuns => k.state == Disconnected && k.index == Deleted
  }

  function Happen(k: Conn, e: Event): (k': Conn) {
    match e
    case Establish => ConnectEstablished(k)
    case Send(data, w) => SendInLoop(k, data, w)
    case Writable(w) => HandleWrite(k, w)
    case ShutdownCall(ownLoop) => ShutdownCalled(k, ownLoop)
    case ShutdownRuns => ShutDownInLoop(if k.inFlight == 0 then k else k.(inFlight := k.inFlight - 1))
    case Close => HandleClose(k)
    case DestroyRuns => ConnectDestroyed(k)
  }

  function History(k: Conn, events: seq<Event>): (r: Option<Conn>)
    decreases |events|
  {
    if events == [] then Some(k)
    else if Possible(k, events[0]) then History(Happen(k, events[0]), events[1..]) else None
  }

  /** A connection that is going down has SHUT_WR behind it, data still to send before it, or a call on
      its way. */
  predicate Progressing(k: Conn) {
    k.state == Disconnecting ==> k.shutWr || k.writing || k.inFlight > 0
  }

  lemma HappenKeeps(k: Conn, e: Event)
    requires ConnOk(k) && Progressing(k) && Possible(k, e)
    ensures ConnOk(Happen(k, e)) && Progressing(Happen(k, e))
  {
    match e
    case Send(data, w) => SendKeeps(k, data, w);
    case Writable(w) => WriteKeeps(k, w);
    case _ =>
  }

  lemma {:induction false} HistoryKeeps(k: Conn, events: seq<Event>)
    requires ConnOk(k) && Progressing(k) && History(k, events).Some?
    ensures var r := History(k, events).value; ConnOk(r) && Progressing(r)
    decreases |events|
  {
    if events != [] {
      HappenKeeps(k, events[0]);
      HistoryKeeps(Happen(k, events[0]), events[1..]);
    }
  }

  /** Over every history of a connection, with any sends, partial or failed writes, shutdowns and a close:
      the bytes written and the bytes still buffered are the accepted messages in order; SHUT_WR never
      overtakes data of an open connection; a connection going down never forgets its half-close. */
  lemma StreamAndDrain(events: seq<Event>)
    requires History(NEW_CONN, events).Some?
    ensures var r := History(NEW_CONN, events).value; ConnOk(r) && Progressing(r)
  {
    HistoryKeeps(NEW_CONN, events);
  }

  /** The messages a history sends that the connection takes: not those sent while disconnected, not
      those that meet a broken pipe. */
  function Accepts(k: Conn, events: seq<Event>): (r: string)
    decreases |events|
  {
    if events == [] || !Possible(k, events[0]) then ""
    else
      (if events[0].Send? && k.state != Disconnected
          && !(!k.writing && k.output == "" && events[0].w == PipeOrReset)
       then events[0].data else "")
      + Accepts(Happen(k, events[0]), events[1..])
  }

  lemma {:induction false} AcceptsInOrder(k: Conn, events: seq<Event>)
    requires ConnOk(k) && Progressing(k) && History(k, events).Some?
    ensures var r := History(k, events).value; r.sent + r.output == k.accepted + Accepts(k, events)
    decreases |events|
  {
    if events == [] {
      assert k.accepted + "" == k.accepted;
    } else {
      var n := Happen(k, events[0]);
      HappenKeeps(k, events[0]);
      AcceptsInOrder(n, events[1..]);
      var head := if events[0].Send? && k.state != Disconnected
                     && !(!k.writing && k.output == "" && events[0].w == PipeOrReset)
                  then events[0].data else "";
      assert n.accepted == k.accepted + head;
      Reassociate(k.accepted, head, Accepts(n, events[1..]));
    }
  }

  /** So the socket has received a prefix of the accepted messages, and the output buffer holds the
      rest. */
  lemma OutputIsAcceptedInOrder(events: seq<Event>)
    requires History(NEW_CONN, events).Some?
    ensures var r := History(NEW_CONN, events).value; r.sent + r.output == Accepts(NEW_CONN, events)
  {
    AcceptsInOrder(NEW_CONN, events);
    assert "" + Accepts(NEW_CONN, events) == Accepts(NEW_CONN, events);
  }

  /** The bytes the kernel says it has taken with one event: of a message sent when nothing was waiting
      before it, or of what was waiting when the socket could be written. */
  function Answered(k: Conn, e: Event): (bytes: string) {
    match e
    case Send(data, Wrote(n)) => if k.state != Disconnected && !k.writing && k.output == "" then FirstOf(n, data) else ""
    case Writable(Wrote(n)) => if k.writing then FirstOf(n, k.output) else ""
    case _ => ""
  }

  /** No kernel reports more than it was offered. */
  function FirstOf(n: nat, offered: string): (bytes: string) {
    if n <= |offered| then offered[..n] else offered
  }

  function Wire(k: Conn, events: seq<Event>): (bytes: string)
    decreases |events|
  {
    if events == [] || !Possible(k, events[0]) then ""
    else Answered(k, events[0]) + Wire(Happen(k, events[0]), events[1..])
  }

  lemma SentAsAnswered(k: Conn, e: Event)
    ensures Happen(k, e).sent == k.sent + Answered(k, e)
  {
    assert k.sent + "" == k.sent;
    match e
    case Send(data, w) => SendAnswered(k, data, w);
    case Writable(w) => WriteAnswered(k, w);
    case _ =>
  }

  lemma SendAnswered(k: Conn, data: string, w: WriteResult)
    ensures SendInLoop(k, data, w).sent == k.sent + Answered(k, Send(data, w))
  {
    assert data[..|data|] == data && data[..0] == "" && k.sent + "" == k.sent;
  }

  lemma WriteAnswered(k: Conn, w: WriteResult)
    ensures HandleWrite(k, w).sent == k.sent + Answered(k, Writable(w))
  {
    assert k.output[..|k.output|] == k.output && k.output[..0] == "" && k.sent + "" == k.sent;
  }

  lemma {:induction false} WireIsSent(k: Conn, events: seq<Event>)
    requires History(k, events).Some?
    ensures History(k, events).value.sent == k.sent + Wire(k, events)
    decreases |events|
  {
    if events == [] {
      assert k.sent + "" == k.sent;
    } else {
      var n := Happen(k, events[0]);
      SentAsAnswered(k, events[0]);
      WireIsSent(n, events[1..]);
      Reassociate(k.sent, Answered(k, events[0]), Wire(n, events[1..]));
    }
  }

  /** Over every history the bytes counted as written are those the kernel's answers say, write by write;
      so what it has not taken is what is still in the buffer. */
  lemma WrittenIsWhatTheKernelTook(events: seq<Event>)
    requires History(NEW_CONN, events).Some?
    ensures var r := History(NEW_CONN, events).value;
            r.sent == Wire(NEW_CONN, events) && Wire(NEW_CONN, events) + r.output == Accepts(NEW_CONN, events)
  {
    WireIsSent(NEW_CONN, events);
    OutputIsAcceptedInOrder(events);
    assert "" + Wire(NEW_CONN, events) == Wire(NEW_CONN, events);
  }

  /** shutdown() has been called. */
  ghost predicate Asked(events: seq<Event>) {
    exists e :: e in events && e.ShutdownCall?
  }

  lemma {:induction false} HistoryStates(k: Conn, events: seq<Event>)
    requires ConnOk(k) && Progressing(k) && History(k, events).Some?
    ensures var r := History(k, events).value;
            && (r.state == Connecting <==> k.state == Connecting && Establish !in events)
            && (r.state == Disconnected <==> k.state == Disconnected || Close in events)
            && (r.state == Disconnecting <==>
                  r.state != Disconnected && (k.state == Disconnecting || Asked(events)))
            && (r.index == New <==> (k.index == New && Establish !in events) || DestroyRuns in events)
            && (r.shutWr || r.inFlight > 0 ==> k.shutWr || k.inFlight > 0 || k.state == Disconnecting || Asked(events))
            && (Establish in events ==> k.state == Connecting)
    decreases |events|
  {
    if events != [] {
      var e := events[0];
      HappenKeeps(k, e);
      HistoryStates(Happen(k, e), events[1..]);
      HeadAsked(events);
      EventStates(k, e);
      assert forall x :: x in events <==> x == e || x in events[1..];
    }
  }

  lemma HeadAsked(events: seq<Event>)
    requires events != []
    ensures Asked(events) <==> events[0].ShutdownCall? || Asked(events[1..])
  {
    assert events[0] in events;
    assert forall x :: x in events <==> x == events[0] || x in events[1..];
  }

  lemma EventStates(k: Conn, e: Event)
    requires ConnOk(k) && Progressing(k) && Possible(k, e)
    ensures var r := Happen(k, e);
            && (r.state == Connecting <==> k.state == Connecting && e != Establish)
            && (r.state == Disconnected <==> k.state == Disconnected || e == Close)
            && (r.state == Disconnecting <==>
                  r.state != Disconnected && (k.state == Disconnecting || e.ShutdownCall?))
            && (r.index == New <==> (k.index == New && e != Establish) || e == DestroyRuns)
            && (r.shutWr || r.inFlight > 0 ==> k.shutWr || k.inFlight > 0 || k.state == Disconnecting || e.ShutdownCall?)
  {
  }

  /** Over every history the state says what has happened; and shutdown() is carried out, and only when
      asked for: with nothing left to write and no call on its way, SHUT_WR has been issued exactly when
      shutdown() was called on a connection not closed since. */
  lemma StateTellsHistory(events: seq<Event>)
    requires History(NEW_CONN, events).Some?
    ensures var r := History(NEW_CONN, events).value;
            && (r.state == Connecting <==> Establish !in events)
            && (r.state == Disconnected <==> Close in events)
            && (r.state == Disconnecting <==> Asked(events) && Close !in events)
            && (r.index == New <==> Establish !in events || DestroyRuns in events)
            && (r.shutWr ==> Asked(events))
            && (r.state != Disconnected && !r.writing && r.inFlight == 0 ==> (r.shutWr <==> Asked(events)))
  {
    HistoryStates(NEW_CONN, events);
    HistoryKeeps(NEW_CONN, events);
  }

  // ---------------------------------------------------------------------------------------------
  // A shutdown() at any time

  /** The hops of a connection's life that its loops will still run, whatever its state word says later. */
  function HopsLeft(k: Conn): (hops: seq<Event>) {
    match k.state
    case Connecting => [Establish, Close, DestroyRuns]
    case Disconnected => if k.index == New then [] else [DestroyRuns]
    case _ => [Close, DestroyRuns]
  }

  predicate IsHop(e: Event) {
    e.Establish? || e.Close? || e.DestroyRuns?
  }

  /** What may come next: the hops in their order, with sends, writes and queued half-closes anywhere
      between them, but no further shutdown(). */
  predicate Follows(hops: seq<Event>, events: seq<Event>)
    decreases |events|
  {
    events == [] ||
    if IsHop(events[0]) then hops != [] && events[0] == hops[0] && Follows(hops[1..], events[1..])
    else !events[0].ShutdownCall? && Follows(hops, events[1..])
  }

  function HappenAll(k: Conn, events: seq<Event>): (r: Conn)
    decreases |events|
  {
    if events == [] then k else HappenAll(Happen(k, events[0]), events[1..])
  }

  /** An assertion has failed, a removed channel is registered again, or the object will be destroyed
      without being disconnected, against the assertion of its destructor. */
  predicate Harmed(k: Conn) {
    k.crashed || (k.destroyed > 0 && (k.index != New || k.state != Disconnected))
  }

  /** What comes after a shutdown() does harm. */
  predicate HarmedBy(k: Conn, ownLoop: bool, events: seq<Event>) {
    Follows(HopsLeft(k), events) && Harmed(HappenAll(ShutdownCalled(k, ownLoop), events))
  }

  /** shutdown() is harmless, whatever comes after it, exactly on an open connection. */
  lemma ShutdownSafeIff(k: Conn, ownLoop: bool)
    requires ConnOk(k)
    ensures (forall events :: !HarmedBy(k, ownLoop, events)) <==> Open(k)
  {
    if Open(k) {
      forall events
        ensures !HarmedBy(k, ownLoop, events)
      {
        if Follows(HopsLeft(k), events) {
          OpenIsNeverHarmed(ShutdownCalled(k, ownLoop), HopsLeft(k), events);
        }
      }
    } else {
      HarmComes(k, ownLoop);
    }
  }

  /** The hops left go with what is known of the connection. */
  predicate Staged(k: Conn, hops: seq<Event>) {
    ConnOk(k) && k.state != Connecting && hops == HopsLeft(k)
  }

  lemma {:induction false} OpenIsNeverHarmed(k: Conn, hops: seq<Event>, events: seq<Event>)
    requires Staged(k, hops) && Follows(hops, events)
    ensures !Harmed(HappenAll(k, events))
    decreases |events|
  {
    if events != [] {
      var e := events[0];
      match e {
        case Send(data, w) => SendKeeps(k, data, w);
        case Writable(w) => WriteKeeps(k, w);
        case _ =>
      }
      OpenIsNeverHarmed(Happen(k, e), if IsHop(e) then hops[1..] else hops, events[1..]);
    }
  }

  /** What can come after a shutdown() on a connection that is not open. */
  function HarmAfter(k: Conn): (events: seq<Event>) {
    if k.state == Connecting then [Establish]
    else if k.index == New then []
    else [Send("x", WouldBlock), DestroyRuns]
  }

  lemma HarmComes(k: Conn, ownLoop: bool)
    requires ConnOk(k) && !Open(k)
    ensures HarmedBy(k, ownLoop, HarmAfter(k))
  {
    var r := ShutdownCalled(k, ownLoop);
    if k.state == Disconnected && k.index != New {
      var send := Send("x", WouldBlock);
      assert HarmAfter(k)[1..] == [DestroyRuns] && [DestroyRuns][1..] == [];
      assert HappenAll(r, HarmAfter(k)) == HappenAll(Happen(r, send), [DestroyRuns]) == Happen(Happen(r, send), DestroyRuns);
    }
  }

  /** On a disconnected connection the harm is done by a queued send: it finds the connection not
      disconnected and enables writing again.  Before the last hop, the removal of the channel then fails
      its assertion; after it, a removed channel is registered once more.  Without the shutdown() the same
      send does nothing, and without the send the last hop goes well. */
  lemma ShutdownOnDisconnectedBreaksTeardown(k: Conn, data: string)
    requires ConnOk(k) && k.state == Disconnected && data != ""
    ensures var r := SendInLoop(Exchange(k).0, data, WouldBlock);
            r.index == Added && (k.index == Deleted ==> ConnectDestroyed(r).crashed)
    ensures SendInLoop(k, data, WouldBlock) == k
    ensures k.index == Deleted ==> ConnOk(ConnectDestroyed(Exchange(k).0))
  {
  }

  // ---------------------------------------------------------------------------------------------
  // The object

  class TcpConnection {
    var state: ConnState
    var reading: bool
    var writing: bool
    var index: Index
    const output: Buffer
    var shutWr: bool
    ghost var inFlight: nat
    ghost var sent: string
    ghost var accepted: string
    ghost var dirtyShut: bool
    ghost var established: nat
    ghost var destroyed: nat

    ghost predicate Valid()
      reads this, output
    {
      output.Valid()
    }

    ghost function View(): (k: Conn)
      requires Valid()
      reads this, output, output.buffer
    {
      Conn(state, reading, writing, index, output.Contents(), shutWr, inFlight, sent, accepted, dirtyShut,
           established, destroyed, false)
    }

    constructor ()
      ensures Valid() && View() == NEW_CONN && fresh(output) && fresh(output.buffer)
    {
      state, reading, writing, index, shutWr := Connecting, false, false, New, false;
      inFlight, sent, accepted, dirtyShut, established, destroyed := 0, "", "", false, 0, 0;
      output := new Buffer(INITIAL_SIZE);
    }

    method Update(r: bool, w: bool)
      requires Valid()
      modifies this`reading, this`writing, this`index
      ensures Valid() && View() == SetInterest(old(View()), r, w)
    {
      reading, writing := r, w;
      index := if index == Added && !r && !w then Deleted else Added;
    }

    method Established()
      requires Valid() && state == Connecting
      modifies this
      ensures Valid() && View() == ConnectEstablished(old(View()))
    {
      state := Connected;
      Update(true, writing);
      established := established + 1;
    }

    /** send_in_loop(data, len); what the kernel does not take has to find room in the buffer. */
    method SendData(data: string, w: WriteResult)
      requires Valid() && Room(output.Shape(), Unsent(View(), data, w))
      modifies this, output, output.buffer
      ensures Valid() && View() == SendInLoop(old(View()), data, w)
      ensures output.buffer == old(output.buffer) || fresh(output.buffer)
    {
      if state == Disconnected {
        return;
      }
      var readable := output.ReadableBytes();
      var direct := !writing && readable == 0;
      if direct && w == PipeOrReset {
        return;
      }
      var n := if direct then Taken(w, data) else 0;
      SendIs(View(), data, w, n);
      Deliver(data, n);
    }

    /** `n` bytes have gone to the socket. */
    method Deliver(data: string, n: nat)
      requires Valid() && n <= |data| && Room(output.Shape(), |data| - n)
      modifies this`sent, this`accepted, this`reading, this`writing, this`index, output, output.buffer
      ensures Valid() && (output.buffer == old(output.buffer) || fresh(output.buffer))
      ensures View() == Delivered(old(View()), data, n)
    {
      sent := sent + data[..n];
      accepted := accepted + data;
      if n < |data| {
        Keep(data[n..]);
      }
    }

    /** What the kernel did not take goes to the buffer, and writing is enabled. */
    method Keep(rest: string)
      requires Valid() && Room(output.Shape(), |rest|)
      modifies this`reading, this`writing, this`index, output, output.buffer
      ensures Valid() && (output.buffer == old(output.buffer) || fresh(output.buffer))
      ensures View() == Kept(old(View()), rest)
    {
      output.Append(rest);
      if !writing {
        Update(reading, true);
      }
    }

    /** send(Buffer*) on the connection's own loop. */
    method SendBuffer(buf: Buffer, w: WriteResult)
      requires Valid() && buf.Valid() && buf != output && buf.buffer != output.buffer
      requires state == Connected ==> Room(output.Shape(), Unsent(View(), buf.Contents(), w))
      modifies this, output, output.buffer, buf`reader, buf`writer
      ensures Valid() && buf.Valid()
      ensures View() == if old(state) == Connected then SendInLoop(old(View()), old(buf.Contents()), w) else old(View())
      ensures buf.Contents() == if old(state) == Connected then "" else old(buf.Contents())
    {
      if state == Connected {
        var n := buf.ReadableBytes();
        var data := buf.Peek(n);
        assert data == buf.Contents();
        SendData(data, w);
        buf.RetrieveAll();
      }
    }

    method OnWritable(w: WriteResult)
      requires Valid()
      modifies this, output`reader, output`writer
      ensures Valid() && View() == HandleWrite(old(View()), w)
    {
      if writing {
        var readable := output.ReadableBytes();
        var data := output.Peek(readable);
        assert data == output.Contents();
        var n := Taken(w, data);
        if n > 0 {
          sent := sent + data[..n];
          output.Retrieve(n);
          var left := output.ReadableBytes();
          if left == 0 {
            Update(reading, false);
            if state == Disconnecting {
              HalfClose();
            }
          }
        }
      }
    }

    /** shut_down_in_loop. */
    method HalfClose()
      requires Valid()
      modifies this`shutWr, this`dirtyShut
      ensures Valid() && View() == ShutDownInLoop(old(View()))
    {
      if !writing {
        shutWr := true;
        dirtyShut := dirtyShut || (output.Contents() != "" && state != Disconnected);
      }
    }

    /** shutdown(): the exchange, and the call that follows when it runs on the connection's own loop. */
    method Shutdown(ownLoop: bool) returns (queue: bool)
      requires Valid()
      modifies this
      ensures Valid() && View() == ShutdownCalled(old(View()), ownLoop)
      ensures queue <==> old(state) == Connected && !ownLoop
    {
      var was := state;
      state := Disconnecting;
      queue := false;
      if was == Connected {
        if ownLoop {
          HalfClose();
        } else {
          inFlight := inFlight + 1;
          queue := true;
        }
      }
    }

    method OnClose()
      requires Valid() && Open(View())
      modifies this
      ensures Valid() && View() == HandleClose(old(View()))
    {
      state := Disconnected;
      Update(false, false);
    }

    method Destroyed()
      requires Valid() && index != New && (state == Connected || (!reading && !writing))
      modifies this
      ensures Valid() && View() == ConnectDestroyed(old(View()))
    {
      var was := state;
      state := Disconnected;
      if was == Connected {
        Update(false, false);
      }
      index := New;
      destroyed := destroyed + 1;
    }
  }
}
