/**
 The timer queue of src/net/timer_queue.cpp as a step system over values: an ordered index by deadline,
 an index by identity, the set of cancellations made while callbacks run, the manually owned heap of
 timers, and the timerfd.  The allocator may hand out an address again as soon as it has been freed.

 Between two steps of the loop thread's code other threads may create timers; callbacks may create, add
 and cancel timers freely.  Following a freed pointer, freeing twice, or failing one of the source's
 assertions sets `failed`.
 */
module Timers {
  import opened Bytes

  type Addr = nat

  const ADDR_MAX: nat := 0xffff_ffff_ffff_ffff
  const MIN_ALARM: int := 100

  datatype Timer = Timer(expiration: int, interval: real, sequence: nat) {
    predicate Repeat() {
      interval > 0.0
    }

    /** The interval in whole microseconds, truncated. */
    function Period(): (d: int)
      ensures Repeat() ==> d >= 0
    {
      if Repeat() then (interval * 1000000.0).Floor else 0
    }
  }

  datatype Entry = Entry(time: int, addr: Addr)

  datatype TimerId = TimerId(addr: Addr, sequence: nat)

  /** An armed timerfd: when it will fire, and when it was set. */
  datatype Alarm = Alarm(deadline: int, setAt: int)

  datatype Phase =
    | Idle
    | Calling(batch: seq<Entry>, called: nat, now: int)   // in the callback loop of handle_read
    | Resetting(rest: seq<Entry>, now: int)               // in the loop of reset

  /** One callback: the timer, and the time and number of the batch it ran in. */
  datatype Run = Run(sequence: nat, now: int, batch: nat)

  /** What the caller asked for: when, and how often from then on if the interval is positive. */
  datatype Request = Request(when: int, interval: real)

  /** Seconds as whole microseconds, truncated. */
  function Micros(seconds: real): (d: int) {
    (seconds * 1000000.0).Floor
  }

  datatype State = State(
    heap: map<Addr, Timer>,
    adding: set<Addr>,                  // created, add_timer_in_loop not yet run
    timers: seq<Entry>,                 // timers_, in order
    active: set<TimerId>,               // active_timers_
    canceling: set<TimerId>,            // canceling_timers_
    phase: Phase,
    alarm: Option<Alarm>,
    failed: bool,
    births: map<nat, TimerId>,          // the id each sequence number was returned in
    requests: map<nat, Request>,        // what each sequence number was created for
    added: set<nat>,                    // sequence numbers whose add_timer_in_loop has run
    cancelled: map<nat, nat>,           // batch number at the first cancel of an added timer
    runs: seq<Run>,
    batches: nat)

  const INIT := State(map[], {}, [], {}, {}, Idle, None, false, map[], map[], {}, map[], [], 0)

  // ---------------------------------------------------------------------------------------------
  // The ordered index

  predicate Less(a: Entry, b: Entry) {
    a.time < b.time || (a.time == b.time && a.addr < b.addr)
  }

  predicate Sorted(ts: seq<Entry>) {
    forall i, j :: 0 <= i < j < |ts| ==> Less(ts[i], ts[j])
  }

  /** std::set::lower_bound: how many entries come before `e`. */
  function LowerBound(ts: seq<Entry>, e: Entry): (k: nat)
    ensures k <= |ts|
    ensures forall i :: 0 <= i < k ==> Less(ts[i], e)
    ensures k < |ts| ==> !Less(ts[k], e)
  {
    if ts == [] || !Less(ts[0], e) then 0 else 1 + LowerBound(ts[1..], e)
  }

  function InsertEntry(ts: seq<Entry>, e: Entry): (r: seq<Entry>) {
    var k := LowerBound(ts, e);
    ts[..k] + [e] + ts[k..]
  }

  function EraseEntry(ts: seq<Entry>, e: Entry): (r: seq<Entry>) {
    var k := LowerBound(ts, e);
    if k < |ts| && ts[k] == e then ts[..k] + ts[k + 1..] else ts
  }

  lemma SplitMembers(ts: seq<Entry>, k: nat)
    requires k <= |ts|
    ensures forall d :: d in ts <==> d in ts[..k] || d in ts[k..]
  {
    assert ts == ts[..k] + ts[k..];
  }

  lemma InsertMembers(ts: seq<Entry>, e: Entry)
    ensures forall d :: d in InsertEntry(ts, e) <==> d == e || d in ts
  {
    SplitMembers(ts, LowerBound(ts, e));
  }

  lemma InsertKeepsSorted(ts: seq<Entry>, e: Entry)
    requires Sorted(ts) && e !in ts
    ensures Sorted(InsertEntry(ts, e))
    ensures InsertEntry(ts, e)[0] == if ts == [] || Less(e, ts[0]) then e else ts[0]
  {
    var k := LowerBound(ts, e);
    var r := InsertEntry(ts, e);
    forall j | k <= j < |ts|
      ensures Less(e, ts[j])
    {
      assert ts[j] in ts && (k == j || Less(ts[k], ts[j]));
    }
    assert forall i :: 0 <= i < |r| ==> r[i] == if i < k then ts[i] else if i == k then e else ts[i - 1];
  }

  lemma EraseMembers(ts: seq<Entry>, e: Entry)
    requires Sorted(ts)
    ensures e in ts ==> LowerBound(ts, e) < |ts| && ts[LowerBound(ts, e)] == e
    ensures forall d :: d in EraseEntry(ts, e) <==> d in ts && d != e
  {
    var k := LowerBound(ts, e);
    if e in ts {
      var i :| 0 <= i < |ts| && ts[i] == e;
      assert i == k;
      SplitMembers(ts, k);
      SplitMembers(ts[k..], 1);
      assert ts[k..][1..] == ts[k + 1..] && ts[k..][..1] == [e];
      assert e !in ts[..k] && e !in ts[k + 1..];
    }
  }

  lemma EraseKeepsSorted(ts: seq<Entry>, e: Entry)
    requires Sorted(ts)
    ensures Sorted(EraseEntry(ts, e))
    ensures e in ts ==> |EraseEntry(ts, e)| == |ts| - 1
    ensures var r := EraseEntry(ts, e);
            r != [] ==> ts != [] && ts[0].time <= r[0].time
  {
    EraseMembers(ts, e);
    var k := LowerBound(ts, e);
    var r := EraseEntry(ts, e);
    assert e in ts ==> forall i :: 0 <= i < |r| ==> r[i] == if i < k then ts[i] else ts[i + 1];
  }

  /** What has expired by `now` is a prefix, and exactly the entries with a deadline not after it. */
  lemma ExpiredIsPrefix(ts: seq<Entry>, now: int)
    requires Sorted(ts) && forall e :: e in ts ==> e.addr < ADDR_MAX
    ensures var k := LowerBound(ts, Entry(now, ADDR_MAX));
            && Sorted(ts[..k]) && Sorted(ts[k..])
            && (forall e :: e in ts[..k] <==> e in ts && e.time <= now)
            && (forall e :: e in ts[k..] <==> e in ts && e.time > now)
  {
    var k := LowerBound(ts, Entry(now, ADDR_MAX));
    forall i | k <= i < |ts|
      ensures ts[i].time > now
    {
      assert ts[k] in ts && (k == i || Less(ts[k], ts[i]));
    }
    DueSplit(ts, k, now);
  }

  lemma DueSplit(ts: seq<Entry>, k: nat, now: int)
    requires k <= |ts|
    requires forall i :: 0 <= i < k ==> ts[i].time <= now
    requires forall i :: k <= i < |ts| ==> ts[i].time > now
    ensures forall e :: e in ts[..k] <==> e in ts && e.time <= now
    ensures forall e :: e in ts[k..] <==> e in ts && e.time > now
  {
    SplitMembers(ts, k);
    forall e | e in ts[..k]
      ensures e.time <= now
    {
      var i :| 0 <= i < k && ts[i] == e;
    }
    forall e | e in ts[k..]
      ensures e.time > now
    {
      var i :| 0 <= i < |ts| - k && ts[k..][i] == e;
    }
  }

  // ---------------------------------------------------------------------------------------------
  // The steps

  /** how_much_time_from_now: seconds and nanoseconds to a deadline, never less than 100 microseconds. */
  function FromNow(when: int, clock: int): (t: (int, int))
    ensures 0 <= t.1 < 1_000_000_000 && t.1 % 1000 == 0
    ensures t.0 * 1_000_000 + t.1 / 1000 >= MIN_ALARM && t.0 * 1_000_000 + t.1 / 1000 >= when - clock
    ensures t.0 * 1_000_000 + t.1 / 1000 == MIN_ALARM || t.0 * 1_000_000 + t.1 / 1000 == when - clock
  {
    var micros := if when - clock < MIN_ALARM then MIN_ALARM else when - clock;
    (micros / 1_000_000, micros % 1_000_000 * 1000)
  }

  /** reset_timerfd: the deadline asked for, or 100 microseconds from now when that is later. */
  function Arm(when: int, clock: int): (a: Option<Alarm>)
    ensures a.Some? && a.value.setAt == clock
    ensures a.value.deadline >= when && a.value.deadline >= clock + MIN_ALARM
    ensures a.value.deadline == when || a.value.deadline == clock + MIN_ALARM
  {
    var t := FromNow(when, clock);
    Some(Alarm(clock + t.0 * 1_000_000 + t.1 / 1000, clock))
  }

  function IdOf(heap: map<Addr, Timer>, a: Addr): (id: TimerId)
    requires a in heap
  {
    TimerId(a, heap[a].sequence)
  }

  function Key(heap: map<Addr, Timer>, a: Addr): (e: Entry)
    requires a in heap
  {
    Entry(heap[a].expiration, a)
  }

  /** The insertion into both indexes, with its two assertions. */
  function Insert(s: State, a: Addr): (s': State)
    requires a in s.heap
  {
    if Key(s.heap, a) in s.timers || IdOf(s.heap, a) in s.active then s.(failed := true)
    else s.(timers := InsertEntry(s.timers, Key(s.heap, a)), active := s.active + {IdOf(s.heap, a)})
  }

  predicate Earliest(ts: seq<Entry>, when: int) {
    ts == [] || when < ts[0].time
  }

  function Ids(heap: map<Addr, Timer>, ts: seq<Entry>): (ids: set<TimerId>)
    requires forall e :: e in ts ==> e.addr in heap
  {
    set e | e in ts :: IdOf(heap, e.addr)
  }

  function AddInLoop(s: State, a: Addr, clock: int): (s': State) {
    if a !in s.heap then s.(failed := true)
    else
      var r := Insert(s.(adding := s.adding - {a}, added := s.added + {s.heap[a].sequence}), a);
      if Earliest(s.timers, s.heap[a].expiration) then r.(alarm := Arm(s.heap[a].expiration, clock)) else r
  }

  /** A cancellation through the id an added timer was returned in counts from now on. */
  function NoteCancel(s: State, id: TimerId): (s': State) {
    if id.sequence in s.added && id.sequence in s.births && s.births[id.sequence] == id
       && id.sequence !in s.cancelled
    then s.(cancelled := s.cancelled[id.sequence := s.batches])
    else s
  }

  function CancelInLoop(s: State, id: TimerId): (s': State) {
    var n := NoteCancel(s, id);
    if id in s.active then
      if id.addr !in s.heap || Key(s.heap, id.addr) !in s.timers then n.(failed := true)
      else n.(timers := EraseEntry(s.timers, Key(s.heap, id.addr)), active := s.active - {id}, heap := s.heap - {id.addr})
    else if s.phase.Calling? then n.(canceling := s.canceling + {id})
    else n
  }

  /** handle_read up to the callback loop.  `fired` says whether the read finds the timerfd expired. */
  function Begin(s: State, now: int, fired: bool): (s': State) {
    var k := LowerBound(s.timers, Entry(now, ADDR_MAX));
    var batch := s.timers[..k];
    if !(forall e :: e in batch ==> e.addr in s.heap && IdOf(s.heap, e.addr) in s.active) then s.(failed := true)
    else
      s.(timers := s.timers[k..], active := s.active - Ids(s.heap, batch), canceling := {},
         phase := Calling(batch, 0, now), batches := s.batches + 1, alarm := if fired then None else s.alarm)
  }

  function RunNext(s: State): (s': State)
    requires s.phase.Calling? && s.phase.called < |s.phase.batch|
  {
    var a := s.phase.batch[s.phase.called].addr;
    if a !in s.heap then s.(failed := true)
    else
      s.(phase := s.phase.(called := s.phase.called + 1),
         runs := s.runs + [Run(s.heap[a].sequence, s.phase.now, s.batches)])
  }

  /** One turn of reset's loop: restart and insert, or free. */
  function ResetNext(s: State): (s': State)
    requires s.phase.Resetting? && s.phase.rest != []
  {
    var a := s.phase.rest[0].addr;
    var r := s.(phase := s.phase.(rest := s.phase.rest[1..]));
    if a !in s.heap then s.(failed := true)
    else if s.heap[a].Repeat() && IdOf(s.heap, a) !in s.canceling then
      Insert(r.(heap := s.heap[a := s.heap[a].(expiration := s.phase.now + s.heap[a].Period())]), a)
    else r.(heap := s.heap - {a})
  }

  /** The end of reset: re-arm for the earliest deadline, if there is one and it is valid. */
  function Rearm(s: State, clock: int): (s': State) {
    var r := s.(phase := Idle);
    if s.timers != [] && s.timers[0].time > 0 then r.(alarm := Arm(s.timers[0].time, clock)) else r
  }

  datatype Step =
    | NewTimer(addr: Addr, when: int, interval: real, sequence: nat)
    | AddStep(addr: Addr, clock: int)
    | CancelStep(id: TimerId)
    | BeginStep(now: int, fired: bool)
    | RunStep
    | EndCalls
    | ResetStep
    | RearmStep(clock: int)

  /** The allocator returns an address not in use, and the counter shared by all queues a number this
      queue has not seen; the loop thread adds and cancels between its own
      steps, callbacks included; the clock is past its epoch. */
  predicate Enabled(s: State, step: Step) {
    match step
    case NewTimer(a, _, _, k) => 0 < a < ADDR_MAX && a !in s.heap && k !in s.births
    case AddStep(a, _) => a in s.adding && !s.phase.Resetting?
    case CancelStep(_) => !s.phase.Resetting?
    case BeginStep(now, _) => s.phase == Idle && now > 0
    case RunStep => s.phase.Calling? && s.phase.called < |s.phase.batch|
    case EndCalls => s.phase.Calling? && s.phase.called == |s.phase.batch|
    case ResetStep => s.phase.Resetting? && s.phase.rest != []
    case RearmStep(_) => s.phase.Resetting? && s.phase.rest == []
  }

  function NewTimerState(s: State, a: Addr, when: int, interval: real, k: nat): (s': State) {
    var t := Timer(when, interval, k);
    s.(heap := s.heap[a := t], adding := s.adding + {a},
       births := s.births[k := TimerId(a, k)],
       requests := s.requests[k := Request(when, interval)])
  }

  function Next(s: State, step: Step): (s': State)
    requires Enabled(s, step)
  {
    match step
    case NewTimer(a, when, interval, k) => NewTimerState(s, a, when, interval, k)
    case AddStep(a, clock) => AddInLoop(s, a, clock)
    case CancelStep(id) => CancelInLoop(s, id)
    case BeginStep(now, fired) => Begin(s, now, fired)
    case RunStep => RunNext(s)
    case EndCalls => s.(phase := Resetting(s.phase.batch, s.phase.now))
    case ResetStep => ResetNext(s)
    case RearmStep(clock) => Rearm(s, clock)
  }

  function After(s: State, steps: seq<Step>): (r: Option<State>) {
    if steps == [] then Some(s)
    else
      var m := After(s, steps[..|steps| - 1]);
      var last := steps[|steps| - 1];
      if m.Some? && Enabled(m.value, last) then Some(Next(m.value, last)) else None
  }

  // ---------------------------------------------------------------------------------------------
  // Invariants

  function Batch(p: Phase): (b: seq<Entry>) {
    match p
    case Idle => []
    case Calling(batch, _, _) => batch
    case Resetting(rest, _) => rest
  }

  /** A live timer is owned once: by its pending add_timer_in_loop, by both indexes, or by the batch. */
  predicate OwnedOnce(s: State, a: Addr)
    requires a in s.heap
  {
    var e := Key(s.heap, a);
    && (a in s.adding ==> e !in s.timers && e !in Batch(s.phase))
    && (e in s.timers ==> e !in Batch(s.phase))
    && (a in s.adding || e in s.timers || e in Batch(s.phase))
    && (e in s.timers <==> IdOf(s.heap, a) in s.active)
  }

  /** An entry's timer is live and its current deadline is the entry's. */
  predicate Current(s: State, e: Entry) {
    e.addr in s.heap && Key(s.heap, e.addr) == e
  }

  predicate Alive(s: State, id: TimerId) {
    id.addr in s.heap && IdOf(s.heap, id.addr) == id
  }

  /** A timer's identity is what its sequence number stands for. */
  predicate Known(s: State, a: Addr)
    requires a in s.heap
  {
    var t := s.heap[a];
    && a < ADDR_MAX
    && t.sequence in s.births && s.births[t.sequence] == TimerId(a, t.sequence)
    && t.sequence in s.requests && s.requests[t.sequence].interval == t.interval
    && (a in s.adding <==> t.sequence !in s.added)
  }

  ghost predicate Base(s: State) {
    && !s.failed
    && Sorted(s.timers) && Sorted(Batch(s.phase))
    && (forall a {:trigger Known(s, a)} :: a in s.heap ==> Known(s, a))
    && (forall e {:trigger Current(s, e)} :: e in s.timers || e in Batch(s.phase) ==> Current(s, e))
    && (forall id {:trigger Alive(s, id)} :: id in s.active ==> Alive(s, id))
    && s.adding <= s.heap.Keys
    && (forall k: nat {:trigger k in s.added} :: k in s.added ==> k in s.births)
    && (s.phase.Calling? ==> s.phase.called <= |s.phase.batch|)
  }

  /** Ownership and index agreement. */
  ghost predicate OwnInv(s: State) {
    Base(s) && forall a {:trigger OwnedOnce(s, a)} :: a in s.heap ==> OwnedOnce(s, a)
  }

  /** The same while `x` is in nobody's hands, between two containers. */
  ghost predicate Loose(s: State, x: Addr) {
    && Base(s) && x in s.heap && x !in s.adding
    && Key(s.heap, x) !in s.timers && Key(s.heap, x) !in Batch(s.phase) && IdOf(s.heap, x) !in s.active
    && forall a {:trigger OwnedOnce(s, a)} :: a in s.heap && a != x ==> OwnedOnce(s, a)
  }

  lemma InsertKeepsOwn(s: State, x: Addr)
    requires Loose(s, x)
    ensures OwnInv(Insert(s, x))
  {
    var r := Insert(s, x);
    var e := Key(s.heap, x);
    InsertMembers(s.timers, e);
    InsertKeepsSorted(s.timers, e);
    forall a | a in r.heap
      ensures OwnedOnce(r, a) && Known(r, a)
    {
      assert Known(s, a) && (a != x ==> OwnedOnce(s, a));
    }
    forall d | d in r.timers || d in Batch(r.phase)
      ensures Current(r, d)
    {
      assert d != e ==> Current(s, d);
    }
    forall id | id in r.active
      ensures Alive(r, id)
    {
      assert id != IdOf(s.heap, x) ==> Alive(s, id);
    }
  }

  lemma FreeKeepsOwn(s: State, x: Addr)
    requires Loose(s, x)
    ensures OwnInv(s.(heap := s.heap - {x}))
  {
    var r := s.(heap := s.heap - {x});
    forall a | a in r.heap
      ensures OwnedOnce(r, a) && Known(r, a)
    {
      assert OwnedOnce(s, a) && Known(s, a);
    }
    forall d | d in r.timers || d in Batch(r.phase)
      ensures Current(r, d)
    {
      assert Current(s, d);
    }
    forall id | id in r.active
      ensures Alive(r, id)
    {
      assert Alive(s, id);
    }
  }

  lemma NewKeepsOwn(s: State, x: Addr, when: int, interval: real, k: nat)
    requires OwnInv(s) && 0 < x < ADDR_MAX && x !in s.heap && k !in s.births
    ensures OwnInv(NewTimerState(s, x, when, interval, k))
  {
    var r := NewTimerState(s, x, when, interval, k);
    forall d | d in r.timers || d in Batch(r.phase)
      ensures Current(r, d) && d.addr != x
    {
      assert Current(s, d);
    }
    forall id | id in r.active
      ensures Alive(r, id) && id.addr != x
    {
      assert Alive(s, id);
    }
    forall a | a in r.heap
      ensures OwnedOnce(r, a) && Known(r, a)
    {
      if a == x {
        assert Key(r.heap, x).addr == x && IdOf(r.heap, x).addr == x;
      } else {
        assert OwnedOnce(s, a) && Known(s, a);
      }
    }
  }

  /** A timer taken out of the pending additions. */
  function Taken(s: State, x: Addr): (s': State)
    requires x in s.heap
  {
    s.(adding := s.adding - {x}, added := s.added + {s.heap[x].sequence})
  }

  lemma TakenIsLoose(s: State, x: Addr)
    requires OwnInv(s) && x in s.adding
    ensures x in s.heap && Loose(Taken(s, x), x)
  {
    var r := Taken(s, x);
    assert OwnedOnce(s, x) && Known(s, x);
    forall a | a in r.heap
      ensures Known(r, a)
      ensures a != x ==> OwnedOnce(r, a)
    {
      assert OwnedOnce(s, a) && Known(s, a);
    }
    forall d | d in r.timers || d in Batch(r.phase)
      ensures Current(r, d)
    {
      assert Current(s, d);
    }
    forall id | id in r.active
      ensures Alive(r, id)
    {
      assert Alive(s, id);
    }
  }

  /** A timer taken out of both indexes. */
  function Erased(s: State, x: Addr): (s': State)
    requires x in s.heap
  {
    s.(timers := EraseEntry(s.timers, Key(s.heap, x)), active := s.active - {IdOf(s.heap, x)})
  }

  lemma ErasedIsLoose(s: State, x: Addr)
    requires OwnInv(s) && x in s.heap && Key(s.heap, x) in s.timers
    ensures Loose(Erased(s, x), x)
  {
    var r := Erased(s, x);
    assert OwnedOnce(s, x);
    EraseMembers(s.timers, Key(s.heap, x));
    EraseKeepsSorted(s.timers, Key(s.heap, x));
    forall a | a in r.heap
      ensures Known(r, a)
      ensures a != x ==> OwnedOnce(r, a)
    {
      assert OwnedOnce(s, a) && Known(s, a);
    }
    forall d | d in r.timers || d in Batch(r.phase)
      ensures Current(r, d)
    {
      assert Current(s, d);
    }
    forall id | id in r.active
      ensures Alive(r, id)
    {
      assert Alive(s, id);
    }
  }

  /** The first timer of reset's list, taken off it and given a new deadline. */
  function Popped(s: State, t: Timer): (s': State)
    requires s.phase.Resetting? && s.phase.rest != []
  {
    s.(phase := s.phase.(rest := s.phase.rest[1..]), heap := s.heap[s.phase.rest[0].addr := t])
  }

  lemma SortedTail(ts: seq<Entry>)
    requires Sorted(ts) && ts != []
    ensures Sorted(ts[1..]) && forall d :: d in ts[1..] <==> d in ts && d != ts[0]
  {
    assert ts == [ts[0]] + ts[1..];
    assert forall j :: 0 < j < |ts| ==> Less(ts[0], ts[j]);
  }

  lemma PoppedIsLoose(s: State, t: Timer)
    requires OwnInv(s) && s.phase.Resetting? && s.phase.rest != []
    requires var x := s.phase.rest[0].addr; x in s.heap && t == s.heap[x].(expiration := t.expiration)
    ensures Loose(Popped(s, t), s.phase.rest[0].addr)
  {
    var e := s.phase.rest[0];
    var x := e.addr;
    var r := Popped(s, t);
    SortedTail(s.phase.rest);
    assert Current(s, e) && OwnedOnce(s, x) && Known(s, x);
    forall d | d in r.timers || d in Batch(r.phase)
      ensures Current(r, d) && d.addr != x
    {
      assert Current(s, d) && d != e;
    }
    assert Key(r.heap, x).addr == x;
    forall a | a in r.heap
      ensures Known(r, a)
      ensures a != x ==> OwnedOnce(r, a)
    {
      assert Known(s, a) && OwnedOnce(s, a);
      assert a != x ==> Key(s.heap, a) != e;
    }
    forall id | id in r.active
      ensures Alive(r, id)
    {
      assert Alive(s, id);
    }
  }

  lemma AddKeepsOwn(s: State, x: Addr, clock: int)
    requires OwnInv(s) && x in s.adding
    ensures OwnInv(AddInLoop(s, x, clock))
  {
    TakenIsLoose(s, x);
    InsertKeepsOwn(Taken(s, x), x);
    SameOwnership(Insert(Taken(s, x), x), AddInLoop(s, x, clock));
  }

  lemma CancelKeepsOwn(s: State, id: TimerId)
    requires OwnInv(s)
    ensures OwnInv(CancelInLoop(s, id))
  {
    CancelIs(s, id);
    var r := CancelInLoop(s, id);
    if id in s.active {
      ErasedIsLoose(s, id.addr);
      FreeKeepsOwn(Erased(s, id.addr), id.addr);
      SameOwnership(Erased(s, id.addr).(heap := s.heap - {id.addr}), r);
    } else {
      SameOwnership(s, r);
    }
  }

  /** The cases of a cancellation when the indexes agree. */
  lemma CancelIs(s: State, id: TimerId)
    requires OwnInv(s)
    ensures id in s.active ==> Alive(s, id) && Key(s.heap, id.addr) in s.timers
    ensures CancelInLoop(s, id) ==
            if id in s.active then
              s.(timers := EraseEntry(s.timers, Key(s.heap, id.addr)), active := s.active - {id},
                 heap := s.heap - {id.addr}, cancelled := NoteCancel(s, id).cancelled)
            else
              s.(cancelled := NoteCancel(s, id).cancelled,
                 canceling := if s.phase.Calling? then s.canceling + {id} else s.canceling)
  {
    if id in s.active {
      assert Alive(s, id) && OwnedOnce(s, id.addr);
    }
  }

  /** Reset's loop goes on with this timer. */
  predicate Restarts(s: State, a: Addr)
    requires a in s.heap
  {
    s.heap[a].Repeat() && IdOf(s.heap, a) !in s.canceling
  }

  lemma RestartKeepsOwn(s: State)
    requires OwnInv(s) && Enabled(s, ResetStep) && Current(s, s.phase.rest[0]) && Restarts(s, s.phase.rest[0].addr)
    ensures OwnInv(ResetNext(s))
  {
    var a := s.phase.rest[0].addr;
    var t := s.heap[a].(expiration := s.phase.now + s.heap[a].Period());
    PoppedIsLoose(s, t);
    InsertKeepsOwn(Popped(s, t), a);
    assert ResetNext(s) == Insert(Popped(s, t), a);
  }

  lemma RetireKeepsOwn(s: State)
    requires OwnInv(s) && Enabled(s, ResetStep) && Current(s, s.phase.rest[0]) && !Restarts(s, s.phase.rest[0].addr)
    ensures OwnInv(ResetNext(s))
  {
    var a := s.phase.rest[0].addr;
    var m := Popped(s, s.heap[a]);
    PoppedIsLoose(s, s.heap[a]);
    FreeKeepsOwn(m, a);
    assert m.heap == s.heap;
    assert ResetNext(s) == m.(heap := m.heap - {a});
  }

  lemma ResetKeepsOwn(s: State)
    requires OwnInv(s) && Enabled(s, ResetStep)
    ensures OwnInv(ResetNext(s))
  {
    assert Current(s, s.phase.rest[0]);
    if Restarts(s, s.phase.rest[0].addr) {
      RestartKeepsOwn(s);
    } else {
      RetireKeepsOwn(s);
    }
  }

  lemma BeginKeepsOwn(s: State, now: int, fired: bool)
    requires OwnInv(s) && s.phase == Idle
    ensures OwnInv(Begin(s, now, fired))
  {
    var k := LowerBound(s.timers, Entry(now, ADDR_MAX));
    var batch := s.timers[..k];
    var r := Begin(s, now, fired);
    forall e | e in s.timers
      ensures Current(s, e) && e.addr < ADDR_MAX && IdOf(s.heap, e.addr) in s.active
    {
      assert Current(s, e) && OwnedOnce(s, e.addr) && Known(s, e.addr);
    }
    ExpiredIsPrefix(s.timers, now);
    forall a | a in r.heap
      ensures OwnedOnce(r, a) && Known(r, a)
    {
      assert OwnedOnce(s, a) && Known(s, a);
      assert IdOf(s.heap, a) in Ids(s.heap, batch) <==> Key(s.heap, a) in batch;
    }
    forall e | e in r.timers || e in Batch(r.phase)
      ensures Current(r, e)
    {
      assert Current(s, e);
    }
    forall id | id in r.active
      ensures Alive(r, id)
    {
      assert Alive(s, id);
    }
  }

  /** Ownership does not depend on the alarm, the history or how far the callbacks have come. */
  lemma SameOwnership(s: State, r: State)
    requires OwnInv(s) && !r.failed && Batch(r.phase) == Batch(s.phase)
    requires r.heap == s.heap && r.adding == s.adding && r.timers == s.timers && r.active == s.active
    requires r.added == s.added && r.births == s.births && r.requests == s.requests
    requires r.phase.Calling? ==> r.phase.called <= |r.phase.batch|
    ensures OwnInv(r)
  {
    forall a | a in r.heap
      ensures OwnedOnce(r, a) && Known(r, a)
    {
      assert OwnedOnce(s, a) && Known(s, a);
    }
    forall d | d in r.timers || d in Batch(r.phase)
      ensures Current(r, d)
    {
      assert Current(s, d);
    }
    forall id | id in r.active
      ensures Alive(r, id)
    {
      assert Alive(s, id);
    }
  }

  lemma StepKeepsOwn(s: State, step: Step)
    requires OwnInv(s) && Enabled(s, step)
    ensures OwnInv(Next(s, step))
  {
    match step
    case NewTimer(a, when, interval, k) => NewKeepsOwn(s, a, when, interval, k);
    case AddStep(a, clock) => AddKeepsOwn(s, a, clock);
    case CancelStep(id) => CancelKeepsOwn(s, id);
    case BeginStep(now, fired) => BeginKeepsOwn(s, now, fired);
    case RunStep =>
      assert Current(s, s.phase.batch[s.phase.called]);
      SameOwnership(s, Next(s, step));
    case ResetStep => ResetKeepsOwn(s);
    case _ => SameOwnership(s, Next(s, step));
  }

  // ---------------------------------------------------------------------------------------------
  // Cancellation

  /** A cancelled timer that is still alive is in the batch it was cancelled in, and marked; and no other
      timer of a batch is marked. */
  predicate Marked(s: State, a: Addr)
    requires a in s.heap
  {
    var k := s.heap[a].sequence;
    && (k in s.cancelled ==>
          Key(s.heap, a) in Batch(s.phase) && IdOf(s.heap, a) in s.canceling && s.cancelled[k] == s.batches)
    && (Key(s.heap, a) in Batch(s.phase) && IdOf(s.heap, a) in s.canceling ==> k in s.cancelled)
  }

  predicate RunUncancelled(s: State, i: nat)
    requires i < |s.runs|
  {
    var r := s.runs[i];
    && r.batch <= s.batches && r.sequence in s.added
    && (r.sequence in s.cancelled ==> r.batch <= s.cancelled[r.sequence])
  }

  ghost predicate CancelInv(s: State) {
    && (forall k: nat {:trigger k in s.cancelled} :: k in s.cancelled ==> k in s.added && s.cancelled[k] <= s.batches)
    && (forall a {:trigger Marked(s, a)} :: a in s.heap ==> Marked(s, a))
    && (forall i {:trigger RunUncancelled(s, i)} :: 0 <= i < |s.runs| ==> RunUncancelled(s, i))
  }

  lemma StepKeepsCancel(s: State, step: Step)
    requires OwnInv(s) && CancelInv(s) && Enabled(s, step)
    ensures CancelInv(Next(s, step))
  {
    var r := Next(s, step);
    StepKeepsOwn(s, step);
    forall a | a in r.heap
      ensures Marked(r, a)
    {
      if step.CancelStep? {
        CancelMarks(s, step.id, a);
      } else if step.ResetStep? {
        ResetMarks(s, a);
      } else {
        OthersMark(s, step, a);
      }
    }
    forall i | 0 <= i < |r.runs|
      ensures RunUncancelled(r, i)
    {
      RunsStayUncancelled(s, step, i);
    }
    CancelledAreAdded(s, step);
  }

  lemma CancelledAreAdded(s: State, step: Step)
    requires CancelInv(s) && Enabled(s, step)
    ensures var r := Next(s, step);
            forall k :: k in r.cancelled ==> k in r.added && r.cancelled[k] <= r.batches
  {
    if step.CancelStep? {
      CancelKeepsRuns(s, step.id);
    } else if !step.RunStep? {
      RunsUnchanged(s, step);
    }
  }

  lemma RunsStayUncancelled(s: State, step: Step, i: nat)
    requires OwnInv(s) && CancelInv(s) && Enabled(s, step) && i < |Next(s, step).runs|
    ensures RunUncancelled(Next(s, step), i)
  {
    if step.RunStep? {
      NewRunUncancelled(s);
      assert i < |s.runs| || i == |s.runs|;
    } else if step.CancelStep? {
      CancelKeepsRuns(s, step.id);
    } else {
      RunsUnchanged(s, step);
    }
    if i < |s.runs| {
      OldRunStays(s, step, i);
    }
  }

  lemma OldRunStays(s: State, step: Step, i: nat)
    requires CancelInv(s) && Enabled(s, step) && i < |s.runs|
    ensures i < |Next(s, step).runs| && RunUncancelled(Next(s, step), i)
  {
    assert RunUncancelled(s, i);
    if step.CancelStep? {
      CancelKeepsRuns(s, step.id);
    } else if !step.RunStep? {
      RunsUnchanged(s, step);
    }
  }

  lemma NewRunUncancelled(s: State)
    requires OwnInv(s) && CancelInv(s) && Enabled(s, RunStep)
    ensures |RunNext(s).runs| == |s.runs| + 1 && RunUncancelled(RunNext(s), |s.runs|)
  {
    var e := s.phase.batch[s.phase.called];
    assert Current(s, e) && OwnedOnce(s, e.addr) && Known(s, e.addr) && Marked(s, e.addr);
  }

  lemma CancelMarks(s: State, id: TimerId, a: Addr)
    requires OwnInv(s) && CancelInv(s) && Enabled(s, CancelStep(id)) && a in CancelInLoop(s, id).heap
    ensures Marked(CancelInLoop(s, id), a)
  {
    if id in s.active {
      assert Alive(s, id) && OwnedOnce(s, id.addr);
    }
    assert OwnedOnce(s, a) && Known(s, a) && Marked(s, a);
  }

  lemma ResetMarks(s: State, a: Addr)
    requires OwnInv(s) && CancelInv(s) && Enabled(s, ResetStep) && a in ResetNext(s).heap
    ensures Marked(ResetNext(s), a)
  {
    var e := s.phase.rest[0];
    assert Current(s, e) && OwnedOnce(s, e.addr) && Marked(s, e.addr);
    assert OwnedOnce(s, a) && Marked(s, a);
    SplitMembers(s.phase.rest, 1);
  }

  lemma OthersMark(s: State, step: Step, a: Addr)
    requires OwnInv(s) && CancelInv(s) && Enabled(s, step) && !step.CancelStep? && !step.ResetStep?
    requires a in Next(s, step).heap
    ensures Marked(Next(s, step), a)
  {
    if step.NewTimer? {
      NewMarks(s, step.addr, step.when, step.interval, step.sequence, a);
    } else if step.AddStep? {
      AddMarks(s, step.addr, step.clock, a);
    } else if step.BeginStep? {
      BeginMarks(s, step.now, step.fired, a);
    } else {
      QuietMarks(s, step, a);
    }
  }

  lemma QuietMarks(s: State, step: Step, a: Addr)
    requires CancelInv(s) && Enabled(s, step) && (step.RunStep? || step.EndCalls? || step.RearmStep?)
    requires a in s.heap && a in Next(s, step).heap
    ensures Marked(Next(s, step), a)
  {
    assert Marked(s, a);
  }

  lemma NewMarks(s: State, x: Addr, when: int, interval: real, k: nat, a: Addr)
    requires OwnInv(s) && CancelInv(s) && Enabled(s, NewTimer(x, when, interval, k))
    requires a in NewTimerState(s, x, when, interval, k).heap
    ensures Marked(NewTimerState(s, x, when, interval, k), a)
  {
    if a == x {
      assert k !in s.added;
      assert Entry(when, x) in Batch(s.phase) ==> Current(s, Entry(when, x));
    } else {
      assert Marked(s, a);
    }
  }

  lemma AddMarks(s: State, x: Addr, clock: int, a: Addr)
    requires OwnInv(s) && CancelInv(s) && Enabled(s, AddStep(x, clock)) && a in s.heap
    ensures a in AddInLoop(s, x, clock).heap && Marked(AddInLoop(s, x, clock), a)
  {
    assert Marked(s, a);
  }

  lemma BeginMarks(s: State, now: int, fired: bool, a: Addr)
    requires OwnInv(s) && CancelInv(s) && Enabled(s, BeginStep(now, fired)) && a in s.heap
    ensures a in Begin(s, now, fired).heap && Marked(Begin(s, now, fired), a)
  {
    assert Marked(s, a);
    BeginIs(s, now, fired);
  }

  // ---------------------------------------------------------------------------------------------
  // Timing

  /** The timer a sequence number was given to is still alive. */
  predicate Live(s: State, k: nat) {
    k in s.births && s.births[k].addr in s.heap && s.heap[s.births[k].addr].sequence == k
  }

  function Now(p: Phase): (t: int) {
    match p
    case Idle => 0
    case Calling(_, _, now) => now
    case Resetting(_, now) => now
  }

  /** The batch entries whose callbacks are still to come. */
  function Uncalled(p: Phase): (b: seq<Entry>)
    requires p.Calling? ==> p.called <= |p.batch|
  {
    if p.Calling? then p.batch[p.called..] else []
  }

  /** What an earlier run says about the timer's next one. */
  predicate Paced(s: State, i: nat)
    requires i < |s.runs| && (s.phase.Calling? ==> s.phase.called <= |s.phase.batch|)
  {
    var r := s.runs[i];
    && r.sequence in s.added && r.sequence in s.requests
    && (Live(s, r.sequence) ==>
          var a := s.births[r.sequence].addr;
          var e := Key(s.heap, a);
          && a !in s.adding
          && (e in s.timers || e in Uncalled(s.phase) ==> s.requests[r.sequence].interval > 0.0 && e.time >= r.now + Micros(s.requests[r.sequence].interval))
          && (e in Batch(s.phase) && e !in Uncalled(s.phase) ==> r.now <= Now(s.phase)))
  }

  /** Two runs of one timer: it repeats, and they are at least its period apart. */
  predicate Spaced(s: State, i: nat, j: nat)
    requires i < j < |s.runs|
  {
    var k := s.runs[i].sequence;
    s.runs[j].sequence == k ==>
      && k in s.requests && s.requests[k].interval > 0.0
      && s.runs[j].now >= s.runs[i].now + Micros(s.requests[k].interval)
  }

  ghost predicate TimeInv(s: State)
    requires s.phase.Calling? ==> s.phase.called <= |s.phase.batch|
  {
    && (forall i {:trigger Paced(s, i)} :: 0 <= i < |s.runs| ==> Paced(s, i))
    && (forall i, j {:trigger Spaced(s, i, j)} :: 0 <= i < j < |s.runs| ==> Spaced(s, i, j))
    && (s.phase.Calling? ==> forall e :: e in s.phase.batch ==> e.time <= s.phase.now)
  }

  lemma StepKeepsTime(s: State, step: Step)
    requires OwnInv(s) && TimeInv(s) && Enabled(s, step)
    ensures OwnInv(Next(s, step)) && TimeInv(Next(s, step))
  {
    StepKeepsOwn(s, step);
    if step.RunStep? {
      RunKeepsTime(s);
    } else {
      OtherStepsKeepTime(s, step);
    }
  }

  lemma OtherStepsKeepTime(s: State, step: Step)
    requires OwnInv(s) && TimeInv(s) && Enabled(s, step) && !step.RunStep? && OwnInv(Next(s, step))
    ensures TimeInv(Next(s, step))
  {
    var r := Next(s, step);
    forall i | 0 <= i < |r.runs|
      ensures Paced(r, i)
    {
      if step.CancelStep? {
        CancelKeepsRuns(s, step.id);
      } else {
        RunsUnchanged(s, step);
      }
      assert Paced(s, i);
      PacedKept(s, step, i);
    }
    forall i, j | 0 <= i < j < |r.runs|
      ensures Spaced(r, i, j)
    {
      SpacedKept(s, step, i, j);
    }
    NewBatchIsDue(s, step);
  }

  /** Only a callback writes the record of runs. */
  ghost predicate SameRecord(s: State, r: State) {
    && r.runs == s.runs && r.batches >= s.batches
    && s.added <= r.added && r.cancelled == s.cancelled
  }

  lemma InsertRecord(s: State, a: Addr)
    requires a in s.heap
    ensures SameRecord(s, Insert(s, a))
  {
  }

  lemma AddRecord(s: State, a: Addr, clock: int)
    ensures SameRecord(s, AddInLoop(s, a, clock))
  {
    if a in s.heap {
      InsertRecord(Taken(s, a), a);
    }
  }

  lemma ResetRecord(s: State)
    requires s.phase.Resetting? && s.phase.rest != []
    ensures SameRecord(s, ResetNext(s))
  {
    var a := s.phase.rest[0].addr;
    if a in s.heap {
      InsertRecord(Popped(s, s.heap[a].(expiration := s.phase.now + s.heap[a].Period())), a);
    }
  }

  lemma BeginRecord(s: State, now: int, fired: bool)
    ensures SameRecord(s, Begin(s, now, fired))
  {
  }

  lemma RunsUnchanged(s: State, step: Step)
    requires Enabled(s, step) && !step.RunStep? && !step.CancelStep?
    ensures SameRecord(s, Next(s, step))
  {
    if step.AddStep? {
      AddRecord(s, step.addr, step.clock);
    } else if step.BeginStep? {
      BeginRecord(s, step.now, step.fired);
    } else if step.ResetStep? {
      ResetRecord(s);
    }
  }

  lemma CancelKeepsRuns(s: State, id: TimerId)
    ensures var r := CancelInLoop(s, id);
            && r.runs == s.runs && r.batches == s.batches && r.added == s.added
            && r.cancelled == NoteCancel(s, id).cancelled
  {
    var n := NoteCancel(s, id);
    assert n.runs == s.runs && n.batches == s.batches && n.added == s.added;
    if id !in s.active {
    } else if id.addr !in s.heap || Key(s.heap, id.addr) !in s.timers {
    } else {
    }
  }

  lemma NewBatchIsDue(s: State, step: Step)
    requires OwnInv(s) && TimeInv(s) && Enabled(s, step) && !step.RunStep?
    ensures var r := Next(s, step); r.phase.Calling? ==> forall e :: e in r.phase.batch ==> e.time <= r.phase.now
  {
    if step.BeginStep? {
      BatchIsDue(s, step.now, step.fired);
    }
  }

  lemma SpacedKept(s: State, step: Step, i: nat, j: nat)
    requires OwnInv(s) && TimeInv(s) && Enabled(s, step) && !step.RunStep?
    requires i < j < |Next(s, step).runs|
    ensures Spaced(Next(s, step), i, j)
  {
    if step.CancelStep? {
      CancelKeepsRuns(s, step.id);
    } else {
      RunsUnchanged(s, step);
    }
    assert Spaced(s, i, j) && Paced(s, i);
    RequestStays(s, step, s.runs[i].sequence);
  }

  /** What is recorded about a number given out stays. */
  lemma RequestStays(s: State, step: Step, k: nat)
    requires OwnInv(s) && Enabled(s, step) && k in s.added && k in s.requests
    ensures k in Next(s, step).requests && Next(s, step).requests[k] == s.requests[k]
  {
  }

  lemma BatchIsDue(s: State, now: int, fired: bool)
    requires OwnInv(s)
    ensures var k := LowerBound(s.timers, Entry(now, ADDR_MAX));
            && (forall e :: e in s.timers[..k] ==> e.time <= now)
            && (forall e :: e in s.timers[k..] ==> e.time > now)
    ensures var r := Begin(s, now, fired);
            r.phase.Calling? && !s.phase.Calling? ==> forall e :: e in r.phase.batch ==> e.time <= now
  {
    forall e | e in s.timers
      ensures e.addr < ADDR_MAX
    {
      assert Current(s, e) && Known(s, e.addr);
    }
    ExpiredIsPrefix(s.timers, now);
  }

  lemma PacedKept(s: State, step: Step, i: nat)
    requires OwnInv(s) && TimeInv(s) && Enabled(s, step) && !step.RunStep? && OwnInv(Next(s, step))
    requires i < |s.runs| && Paced(s, i)
    ensures |Next(s, step).runs| == |s.runs| && Paced(Next(s, step), i)
  {
    var r := Next(s, step);
    var k := s.runs[i].sequence;
    assert k in s.added && k in s.births;
    match step
    case ResetStep => ResetPaces(s, i);
    case AddStep(a, clock) => AddPaces(s, a, clock, i);
    case CancelStep(id) => CancelPaces(s, id, i);
    case BeginStep(now, fired) => SplitMembers(s.timers, LowerBound(s.timers, Entry(now, ADDR_MAX)));
    case NewTimer(_, _, _, _) =>
      if Live(r, k) {
        assert Live(s, k);
      }
    case _ =>
  }

  lemma AddPaces(s: State, a: Addr, clock: int, i: nat)
    requires OwnInv(s) && TimeInv(s) && Enabled(s, AddStep(a, clock)) && OwnInv(AddInLoop(s, a, clock))
    requires i < |s.runs| && Paced(s, i)
    ensures Paced(AddInLoop(s, a, clock), i)
  {
    assert Known(s, a);
    TakenIsLoose(s, a);
    InsertMembers(s.timers, Key(s.heap, a));
    var k := s.runs[i].sequence;
    if Live(s, k) {
      assert s.births[k].addr != a;
    }
  }

  lemma CancelPaces(s: State, id: TimerId, i: nat)
    requires OwnInv(s) && TimeInv(s) && Enabled(s, CancelStep(id)) && OwnInv(CancelInLoop(s, id))
    requires i < |s.runs| && Paced(s, i)
    ensures Paced(CancelInLoop(s, id), i)
  {
    if id in s.active {
      assert Alive(s, id);
      EraseMembers(s.timers, Key(s.heap, id.addr));
    }
  }

  lemma ResetPaces(s: State, i: nat)
    requires OwnInv(s) && TimeInv(s) && Enabled(s, ResetStep) && OwnInv(ResetNext(s))
    requires i < |s.runs| && Paced(s, i)
    ensures Paced(ResetNext(s), i)
  {
    var e := s.phase.rest[0];
    assert Current(s, e) && OwnedOnce(s, e.addr) && Known(s, e.addr);
    SplitMembers(s.phase.rest, 1);
    var r := ResetNext(s);
    var k := s.runs[i].sequence;
    if Live(r, k) {
      var a := s.births[k].addr;
      InsertMembers(s.timers, Key(r.heap, a));
      InsertMembers(s.timers, Entry(s.phase.now + s.heap[e.addr].Period(), e.addr));
      assert Live(s, k) && Known(s, a) && OwnedOnce(s, a);
      if a != e.addr {
        assert Key(r.heap, a) == Key(s.heap, a);
      }
    }
  }

  lemma RunKeepsTime(s: State)
    requires OwnInv(s) && TimeInv(s) && Enabled(s, RunStep) && OwnInv(RunNext(s))
    ensures TimeInv(RunNext(s))
  {
    var r := RunNext(s);
    var e := s.phase.batch[s.phase.called];
    var n := |s.runs|;
    assert Current(s, e) && OwnedOnce(s, e.addr) && Known(s, e.addr);
    var k := s.heap[e.addr].sequence;
    UncalledSplit(s.phase);
    forall i | 0 <= i < |r.runs|
      ensures Paced(r, i)
    {
      if i < n {
        assert Paced(s, i);
        if Live(s, s.runs[i].sequence) {
          var a := s.births[s.runs[i].sequence].addr;
          assert Known(s, a) && OwnedOnce(s, a);
          assert a != e.addr ==> Key(s.heap, a) != e;
        }
      }
    }
    forall i, j | 0 <= i < j < |r.runs|
      ensures Spaced(r, i, j)
    {
      if j < n {
        assert Spaced(s, i, j);
      } else {
        assert Paced(s, i);
      }
    }
  }

  lemma UncalledSplit(p: Phase)
    requires p.Calling? && p.called < |p.batch| && Sorted(p.batch)
    ensures var e := p.batch[p.called];
            var q := p.(called := p.called + 1);
            e in Uncalled(p) && e !in Uncalled(q) && forall d :: d != e ==> (d in Uncalled(p) <==> d in Uncalled(q))
  {
    assert Uncalled(p) == [p.batch[p.called]] + p.batch[p.called + 1..];
  }

  // ---------------------------------------------------------------------------------------------
  // The alarm

  /** The timerfd is set for no later than the earliest deadline, or 100 microseconds after it was set. */
  predicate Covered(s: State) {
    s.timers != [] ==>
      && s.alarm.Some?
      && var latest := s.alarm.value.setAt + MIN_ALARM;
         s.alarm.value.deadline <= if s.timers[0].time > latest then s.timers[0].time else latest
  }

  ghost predicate AlarmInv(s: State) {
    && (s.phase == Idle ==> Covered(s))
    && (s.phase != Idle ==> Now(s.phase) > 0)
    && (s.phase != Idle && s.timers != [] && s.timers[0].time <= 0 ==> Covered(s))
  }

  lemma StepKeepsAlarm(s: State, step: Step)
    requires OwnInv(s) && TimeInv(s) && AlarmInv(s) && Enabled(s, step)
    ensures AlarmInv(Next(s, step))
  {
    match step
    case AddStep(a, clock) => AddKeepsAlarm(s, a, clock);
    case CancelStep(id) => CancelKeepsAlarm(s, id);
    case BeginStep(now, fired) => BeginKeepsAlarm(s, now, fired);
    case ResetStep => ResetKeepsAlarm(s);
    case _ =>
  }

  lemma AddKeepsAlarm(s: State, a: Addr, clock: int)
    requires OwnInv(s) && AlarmInv(s) && Enabled(s, AddStep(a, clock))
    ensures AlarmInv(AddInLoop(s, a, clock))
  {
    TakenIsLoose(s, a);
    InsertKeepsSorted(s.timers, Key(s.heap, a));
  }

  lemma CancelKeepsAlarm(s: State, id: TimerId)
    requires OwnInv(s) && AlarmInv(s) && Enabled(s, CancelStep(id))
    ensures AlarmInv(CancelInLoop(s, id))
  {
    CancelIs(s, id);
    if id in s.active {
      EraseKeepsSorted(s.timers, Key(s.heap, id.addr));
    }
  }

  lemma BeginKeepsAlarm(s: State, now: int, fired: bool)
    requires OwnInv(s) && AlarmInv(s) && Enabled(s, BeginStep(now, fired))
    ensures AlarmInv(Begin(s, now, fired))
  {
    BatchIsDue(s, now, fired);
    BeginKeepsOwn(s, now, fired);
    var r := Begin(s, now, fired);
    assert r.timers != [] ==> r.timers[0] in r.timers;
  }

  lemma ResetKeepsAlarm(s: State)
    requires OwnInv(s) && AlarmInv(s) && Enabled(s, ResetStep)
    ensures AlarmInv(ResetNext(s))
  {
    var e := s.phase.rest[0];
    assert Current(s, e);
    var t := s.heap[e.addr];
    if t.Repeat() && IdOf(s.heap, e.addr) !in s.canceling {
      PoppedIsLoose(s, t.(expiration := s.phase.now + t.Period()));
      InsertKeepsSorted(s.timers, Entry(s.phase.now + t.Period(), e.addr));
    }
  }

  // ---------------------------------------------------------------------------------------------
  // Theorems over all runs

  ghost predicate Inv(s: State) {
    OwnInv(s) && CancelInv(s) && TimeInv(s) && AlarmInv(s)
  }

  lemma {:induction false} Reachable(steps: seq<Step>)
    requires After(INIT, steps).Some?
    ensures Inv(After(INIT, steps).value)
  {
    if steps != [] {
      var init, last := steps[..|steps| - 1], steps[|steps| - 1];
      Reachable(init);
      var s := After(INIT, init).value;
      StepKeepsCancel(s, last);
      StepKeepsTime(s, last);
      StepKeepsAlarm(s, last);
    }
  }

  /** The timer at `a` is waiting in its pending addition, in both indexes, or in the batch: one of them. */
  predicate InOnePlace(s: State, a: Addr)
    requires a in s.heap
  {
    var indexed := Key(s.heap, a) in s.timers && IdOf(s.heap, a) in s.active;
    var batched := Key(s.heap, a) in Batch(s.phase);
    (a in s.adding && !indexed && !batched) || (a !in s.adding && indexed != batched)
  }

  /** Whatever threads and callbacks do: no assertion fails, nothing freed is followed or freed again
      and nothing is leaked; the two indexes are in bijection, each key being its timer's deadline. */
  lemma OwnershipAndAgreement(steps: seq<Step>)
    requires After(INIT, steps).Some?
    ensures var s := After(INIT, steps).value;
            && !s.failed && |s.timers| == |s.active|
            && (forall a :: a in s.heap ==> InOnePlace(s, a))
            && (forall e :: e in s.timers ==> e.addr in s.heap && Key(s.heap, e.addr) == e && IdOf(s.heap, e.addr) in s.active)
            && (forall id :: id in s.active ==> id.addr in s.heap && IdOf(s.heap, id.addr) == id && Key(s.heap, id.addr) in s.timers)
  {
    Reachable(steps);
    var s := After(INIT, steps).value;
    forall a | a in s.heap
      ensures InOnePlace(s, a)
    {
      assert OwnedOnce(s, a);
    }
    forall e | e in s.timers
      ensures e.addr in s.heap && Key(s.heap, e.addr) == e && IdOf(s.heap, e.addr) in s.active
    {
      assert Current(s, e) && OwnedOnce(s, e.addr);
    }
    forall id | id in s.active
      ensures id.addr in s.heap && IdOf(s.heap, id.addr) == id && Key(s.heap, id.addr) in s.timers
    {
      assert Alive(s, id) && OwnedOnce(s, id.addr);
    }
    SameSize(s.heap, s.timers, s.active);
  }

  lemma {:induction false} SameSize(heap: map<Addr, Timer>, ts: seq<Entry>, ids: set<TimerId>)
    requires Sorted(ts)
    requires forall e :: e in ts ==> e.addr in heap && Key(heap, e.addr) == e && IdOf(heap, e.addr) in ids
    requires forall id :: id in ids ==> id.addr in heap && IdOf(heap, id.addr) == id && Key(heap, id.addr) in ts
    ensures |ts| == |ids|
  {
    if ts == [] {
      assert ids == {};
    } else {
      var id := IdOf(heap, ts[0].addr);
      SplitMembers(ts, 1);
      assert ts[0] !in ts[1..];
      SameSize(heap, ts[1..], ids - {id});
    }
  }

  /** A cancellation touches no timer but the one its id was returned for, even when that timer is gone
      and its address is in use again. */
  lemma StaleIdsAreHarmless(steps: seq<Step>, id: TimerId, a: Addr)
    requires After(INIT, steps).Some?
    requires a in After(INIT, steps).value.heap && IdOf(After(INIT, steps).value.heap, a) != id
    ensures var s := After(INIT, steps).value;
            var r := CancelInLoop(s, id);
            && a in r.heap && r.heap[a] == s.heap[a]
            && (Key(s.heap, a) in r.timers <==> Key(s.heap, a) in s.timers)
            && (IdOf(s.heap, a) in r.active <==> IdOf(s.heap, a) in s.active)
            && (IdOf(s.heap, a) in r.canceling <==> IdOf(s.heap, a) in s.canceling)
  {
    Reachable(steps);
    var s := After(INIT, steps).value;
    if id in s.active {
      assert Alive(s, id) && OwnedOnce(s, a);
      EraseMembers(s.timers, Key(s.heap, id.addr));
    }
  }

  /** Once a timer has been added, a cancel through its id means that it runs in no later batch, whether
      it was cancelled from outside, by itself, or by another timer of its batch. */
  lemma CancelledNeverRunsLater(steps: seq<Step>, i: nat)
    requires After(INIT, steps).Some? && i < |After(INIT, steps).value.runs|
    ensures var s := After(INIT, steps).value;
            s.runs[i].sequence in s.cancelled ==> s.runs[i].batch <= s.cancelled[s.runs[i].sequence]
  {
    Reachable(steps);
    assert RunUncancelled(After(INIT, steps).value, i);
  }

  /** The first cancel of an added timer is what `cancelled` remembers. */
  lemma CancelIsRemembered(steps: seq<Step>, a: Addr)
    requires After(INIT, steps).Some?
    requires var s := After(INIT, steps).value; a in s.heap && a !in s.adding
    ensures var s := After(INIT, steps).value;
            var r := CancelInLoop(s, IdOf(s.heap, a));
            && s.heap[a].sequence in r.cancelled
            && r.cancelled[s.heap[a].sequence] == s.batches
  {
    Reachable(steps);
    assert Known(After(INIT, steps).value, a) && Marked(After(INIT, steps).value, a);
  }

  /** Over whole runs: a one-shot timer runs at most once, and two runs of a repeating timer are in
      batches at least its period apart. */
  lemma RunsAreSpaced(steps: seq<Step>, i: nat, j: nat)
    requires After(INIT, steps).Some? && i < j < |After(INIT, steps).value.runs|
    requires var s := After(INIT, steps).value; s.runs[i].sequence == s.runs[j].sequence
    ensures var s := After(INIT, steps).value;
            var k := s.runs[i].sequence;
            && k in s.requests && s.requests[k].interval > 0.0
            && s.runs[j].now >= s.runs[i].now + Micros(s.requests[k].interval)
  {
    Reachable(steps);
    assert Spaced(After(INIT, steps).value, i, j);
  }

  /** A batch is exactly the timers due at its time, in deadline order, and nothing due is left. */
  lemma BatchIsWhatIsDue(steps: seq<Step>, now: int, fired: bool)
    requires After(INIT, steps).Some? && After(INIT, steps).value.phase == Idle
    ensures var s := After(INIT, steps).value;
            var r := Begin(s, now, fired);
            && !r.failed && r.phase.Calling? && Sorted(r.phase.batch)
            && (forall e :: e in r.phase.batch <==> e in s.timers && e.time <= now)
            && (forall e :: e in r.timers <==> e in s.timers && e.time > now)
  {
    Reachable(steps);
    var s := After(INIT, steps).value;
    BeginKeepsOwn(s, now, fired);
    forall e | e in s.timers
      ensures e.addr < ADDR_MAX
    {
      assert Current(s, e) && Known(s, e.addr);
    }
    ExpiredIsPrefix(s.timers, now);
  }

  /** Between calls of handle_read a queue that is not empty always has an alarm, early enough for its
      earliest deadline. */
  lemma AlarmCoverage(steps: seq<Step>)
    requires After(INIT, steps).Some? && After(INIT, steps).value.phase == Idle
    ensures Covered(After(INIT, steps).value)
  {
    Reachable(steps);
  }

  lemma BeginIs(s: State, now: int, fired: bool)
    requires OwnInv(s)
    ensures var k := LowerBound(s.timers, Entry(now, ADDR_MAX));
            && (forall e :: e in s.timers[..k] ==> e.addr in s.heap)
            && Begin(s, now, fired) ==
               s.(timers := s.timers[k..], active := s.active - Ids(s.heap, s.timers[..k]), canceling := {},
                  phase := Calling(s.timers[..k], 0, now), batches := s.batches + 1,
                  alarm := if fired then None else s.alarm)
  {
    forall e | e in s.timers
      ensures e.addr in s.heap && IdOf(s.heap, e.addr) in s.active
    {
      assert Current(s, e) && OwnedOnce(s, e.addr);
    }
  }

  lemma AfterOne(s: State, steps: seq<Step>, m: State, step: Step)
    requires After(s, steps) == Some(m) && Enabled(m, step)
    ensures After(s, steps + [step]) == Some(Next(m, step))
  {
    assert (steps + [step])[..|steps|] == steps;
  }
}
