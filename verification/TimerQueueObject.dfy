/**
 The timer queue object: each method of src/net/timer_queue.cpp changes the fields the way the step
 system says, and a whole handle_read, with callbacks that add and cancel timers, is a run of it.
 */
module TimerQueues {
  import opened Bytes
  import opened Timers

  /** What a callback may do to the queue that runs it. */
  datatype Command =
    | AddCommand(addr: Addr, when: int, interval: real, clock: int, elsewhere: nat)
    | CancelCommand(id: TimerId)

  class TimerQueue {
    var heap: map<Addr, Timer>
    var created: nat
    var adding: set<Addr>
    var timers: seq<Entry>
    var active: set<TimerId>
    var canceling: set<TimerId>
    var calling: bool
    var alarm: Option<Alarm>
    ghost var phase: Phase
    ghost var births: map<nat, TimerId>
    ghost var requests: map<nat, Request>
    ghost var added: set<nat>
    ghost var cancelled: map<nat, nat>
    ghost var runs: seq<Run>
    ghost var batches: nat

    ghost function View(): (s: State)
      reads this
    {
      State(heap, adding, timers, active, canceling, phase, alarm, false,
            births, requests, added, cancelled, runs, batches)
    }

    /** The counter, shared with every other queue, is past all numbers of this one. */
    ghost predicate Numbered()
      reads this
    {
      forall k: nat {:trigger k in births} :: k in births ==> k < created
    }

    ghost predicate Valid()
      reads this
    {
      OwnInv(View()) && (calling <==> phase.Calling?) && Numbered()
    }

    constructor ()
      ensures Valid() && View() == INIT
    {
      heap, created, adding, timers, active, canceling := map[], 0, {}, [], {}, {};
      calling, alarm, phase := false, None, Idle;
      births, requests, added, cancelled, runs, batches := map[], map[], {}, map[], [], 0;
    }

    /** add_timer: the allocation; the pending add_timer_in_loop is the address in `adding`.  Other queues
        have drawn `elsewhere` numbers since this one last did. */
    method AddTimer(a: Addr, when: int, interval: real, elsewhere: nat) returns (id: TimerId)
      requires Valid() && 0 < a < ADDR_MAX && a !in heap
      modifies this
      ensures Valid() && created > id.sequence == old(created) + elsewhere
      ensures Enabled(old(View()), NewTimer(a, when, interval, id.sequence))
      ensures View() == Next(old(View()), NewTimer(a, when, interval, id.sequence))
      ensures id == TimerId(a, id.sequence) && phase == old(phase)
    {
      NewKeepsOwn(View(), a, when, interval, created + elsewhere);
      id := TimerId(a, created + elsewhere);
      Create(a, Timer(when, interval, id.sequence));
    }

    /** The constructor of the timer. */
    method Create(a: Addr, t: Timer)
      requires created <= t.sequence && Numbered()
      modifies this`heap, this`adding, this`created, this`births, this`requests
      ensures View() == NewTimerState(old(View()), a, t.expiration, t.interval, t.sequence)
      ensures created == t.sequence + 1 && Numbered()
    {
      births := births[t.sequence := TimerId(a, t.sequence)];
      requests := requests[t.sequence := Request(t.expiration, t.interval)];
      heap := heap[a := t];
      adding := adding + {a};
      created := t.sequence + 1;
    }

    method InsertBoth(a: Addr) returns (earliest: bool)
      requires Loose(View(), a) && (calling <==> phase.Calling?) && Numbered()
      modifies this`timers, this`active
      ensures Valid() && View() == Insert(old(View()), a)
      ensures earliest <==> Earliest(old(timers), heap[a].expiration)
    {
      InsertKeepsOwn(View(), a);
      earliest := timers == [] || heap[a].expiration < timers[0].time;
      timers := InsertEntry(timers, Entry(heap[a].expiration, a));
      active := active + {TimerId(a, heap[a].sequence)};
    }

    method AddTimerInLoop(a: Addr, clock: int)
      requires Valid() && Enabled(View(), AddStep(a, clock))
      modifies this
      ensures Valid() && View() == AddInLoop(old(View()), a, clock)
      ensures phase == old(phase)
    {
      TakenIsLoose(View(), a);
      AddKeepsOwn(View(), a, clock);
      adding := adding - {a};
      added := added + {heap[a].sequence};
      var earliest := InsertBoth(a);
      if earliest {
        alarm := Arm(heap[a].expiration, clock);
      }
    }

    method Cancel(id: TimerId)
      requires Valid() && Enabled(View(), CancelStep(id))
      modifies this
      ensures Valid() && View() == CancelInLoop(old(View()), id)
      ensures phase == old(phase)
    {
      ghost var s := View();
      CancelKeepsOwn(s, id);
      CancelIs(s, id);
      cancelled := NoteCancel(s, id).cancelled;
      if id in active {
        timers := EraseEntry(timers, Entry(heap[id.addr].expiration, id.addr));
        heap := heap - {id.addr};
        active := active - {id};
      } else if calling {
        canceling := canceling + {id};
      }
    }

    /** get_expired: cut the due prefix off the ordered index, then erase each of it from the other. */
    method GetExpired(now: int) returns (expired: seq<Entry>)
      requires Valid() && phase == Idle
      modifies this`timers, this`active
      ensures var k := LowerBound(old(timers), Entry(now, ADDR_MAX));
              && expired == old(timers)[..k] && timers == old(timers)[k..]
              && (forall e :: e in expired ==> e.addr in heap && IdOf(heap, e.addr) in old(active))
              && active == old(active) - Ids(heap, expired)
    {
      ghost var s := View();
      var end := LowerBound(timers, Entry(now, ADDR_MAX));
      expired := timers[..end];
      timers := timers[end..];
      forall e | e in s.timers
        ensures e.addr in heap && IdOf(heap, e.addr) in s.active
      {
        assert Current(s, e) && OwnedOnce(s, e.addr);
      }
      for i := 0 to |expired|
        invariant timers == s.timers[end..] && active == s.active - Ids(heap, expired[..i])
      {
        assert expired[i] in expired && expired[..i + 1] == expired[..i] + [expired[i]];
        active := active - {TimerId(expired[i].addr, heap[expired[i].addr].sequence)};
      }
      assert expired[..|expired|] == expired;
    }

    /** handle_read: the batch, its callbacks one after the other, each doing what `script` says, then
        the reset.  It is a run of the step system from the state it finds to the state it leaves. */
    method HandleRead(now: int, fired: bool, script: seq<seq<Command>>, clock: int) returns (ghost steps: seq<Step>)
      requires Valid() && Enabled(View(), BeginStep(now, fired))
      modifies this
      ensures Valid() && phase == Idle
      ensures After(old(View()), steps) == Some(View())
    {
      ghost var s := View();
      AfterOne(s, [], s, BeginStep(now, fired));
      var expired := BeginBatch(now, fired);
      steps := CallAll(s, [] + [BeginStep(now, fired)], expired, now, script);
      steps := EndCallbacks(s, steps, expired, now);
      steps := Reset(s, steps, expired, now, clock);
    }

    method EndCallbacks(ghost s: State, ghost before: seq<Step>, expired: seq<Entry>, now: int)
      returns (ghost steps: seq<Step>)
      requires Valid() && After(s, before) == Some(View()) && phase == Calling(expired, |expired|, now)
      modifies this`calling, this`phase
      ensures Valid() && After(s, steps) == Some(View()) && phase == Resetting(expired, now)
    {
      AfterOne(s, before, View(), EndCalls);
      SameOwnership(View(), Next(View(), EndCalls));
      steps := before + [EndCalls];
      calling := false;
      phase := Resetting(expired, now);
    }

    method BeginBatch(now: int, fired: bool) returns (expired: seq<Entry>)
      requires Valid() && phase == Idle
      modifies this
      ensures Valid() && View() == Begin(old(View()), now, fired)
      ensures phase == Calling(expired, 0, now)
    {
      BeginKeepsOwn(View(), now, fired);
      BeginIs(View(), now, fired);
      expired := CollectBatch(now, fired);
    }

    /** Everything handle_read does before the first callback. */
    method CollectBatch(now: int, fired: bool) returns (expired: seq<Entry>)
      requires Valid() && phase == Idle
      modifies this`timers, this`active, this`canceling, this`phase, this`batches, this`alarm, this`calling
      ensures expired == old(timers)[..LowerBound(old(timers), Entry(now, ADDR_MAX))]
      ensures timers == old(timers)[LowerBound(old(timers), Entry(now, ADDR_MAX))..]
      ensures forall e :: e in expired ==> e.addr in heap
      ensures active == old(active) - Ids(heap, expired)
      ensures canceling == {} && phase == Calling(expired, 0, now) && batches == old(batches) + 1
      ensures alarm == (if fired then None else old(alarm)) && calling
    {
      expired := GetExpired(now);
      if fired {
        alarm := None;
      }
      calling := true;
      canceling := {};
      phase := Calling(expired, 0, now);
      batches := batches + 1;
    }

    method CallAll(ghost s: State, ghost before: seq<Step>, expired: seq<Entry>, now: int, script: seq<seq<Command>>)
      returns (ghost steps: seq<Step>)
      requires Valid() && After(s, before) == Some(View()) && phase == Calling(expired, 0, now)
      modifies this
      ensures Valid() && After(s, steps) == Some(View()) && phase == Calling(expired, |expired|, now)
    {
      steps := before;
      for i := 0 to |expired|
        invariant Valid() && phase == Calling(expired, i, now) && After(s, steps) == Some(View())
      {
        steps := CallOne(s, steps, expired[i], if i < |script| then script[i] else []);
      }
    }

    /** One callback. */
    method CallOne(ghost s: State, ghost before: seq<Step>, e: Entry, commands: seq<Command>)
      returns (ghost steps: seq<Step>)
      requires Valid() && After(s, before) == Some(View())
      requires phase.Calling? && phase.called < |phase.batch| && phase.batch[phase.called] == e
      modifies this
      ensures Valid() && After(s, steps) == Some(View())
      ensures phase == old(phase).(called := old(phase).called + 1)
    {
      AfterOne(s, before, View(), RunStep);
      steps := before + [RunStep];
      Call(e);
      for i := 0 to |commands|
        invariant Valid() && After(s, steps) == Some(View())
        invariant phase == old(phase).(called := old(phase).called + 1)
      {
        steps := Execute(s, steps, commands[i]);
      }
    }

    /** The call itself. */
    method Call(e: Entry)
      requires Valid() && phase.Calling? && phase.called < |phase.batch| && phase.batch[phase.called] == e
      modifies this`runs, this`phase
      ensures Valid() && View() == RunNext(old(View()))
      ensures phase == old(phase).(called := old(phase).called + 1)
    {
      assert Current(View(), e);
      StepKeepsOwn(View(), RunStep);
      runs := runs + [Run(heap[e.addr].sequence, phase.now, batches)];
      phase := phase.(called := phase.called + 1);
    }

    /** What a callback asks for; an addition needs an address the allocator can give out. */
    method Execute(ghost s: State, ghost before: seq<Step>, c: Command) returns (ghost steps: seq<Step>)
      requires Valid() && After(s, before) == Some(View()) && phase.Calling?
      modifies this
      ensures Valid() && After(s, steps) == Some(View()) && phase == old(phase)
    {
      steps := before;
      match c {
        case AddCommand(a, when, interval, clock, elsewhere) =>
          if 0 < a < ADDR_MAX && a !in heap {
            ghost var before := View();
            var id := AddTimer(a, when, interval, elsewhere);
            AfterOne(s, steps, before, NewTimer(a, when, interval, id.sequence));
            steps := steps + [NewTimer(a, when, interval, id.sequence)];
            AfterOne(s, steps, View(), AddStep(a, clock));
            steps := steps + [AddStep(a, clock)];
            AddTimerInLoop(a, clock);
          }
        case CancelCommand(id) =>
          AfterOne(s, steps, View(), CancelStep(id));
          steps := steps + [CancelStep(id)];
          Cancel(id);
      }
    }

    /** reset: restart or free each timer of the batch, then re-arm. */
    method Reset(ghost s: State, ghost before: seq<Step>, expired: seq<Entry>, now: int, clock: int)
      returns (ghost steps: seq<Step>)
      requires Valid() && phase == Resetting(expired, now) && After(s, before) == Some(View())
      modifies this
      ensures Valid() && phase == Idle && After(s, steps) == Some(View())
    {
      steps := before;
      for i := 0 to |expired|
        invariant Valid() && phase == Resetting(expired[i..], now) && After(s, steps) == Some(View())
      {
        AfterOne(s, steps, View(), ResetStep);
        steps := steps + [ResetStep];
        assert expired[i..][0] == expired[i] && expired[i..][1..] == expired[i + 1..];
        ResetOne(expired[i], now);
      }
      AfterOne(s, steps, View(), RearmStep(clock));
      StepKeepsOwn(View(), RearmStep(clock));
      steps := steps + [RearmStep(clock)];
      phase := Idle;
      if timers != [] && timers[0].time > 0 {
        alarm := Arm(timers[0].time, clock);
      }
    }

    method ResetOne(e: Entry, now: int)
      requires Valid() && phase.Resetting? && phase.rest != [] && phase.rest[0] == e && phase.now == now
      modifies this
      ensures Valid() && View() == ResetNext(old(View()))
      ensures phase == Resetting(old(phase.rest)[1..], now)
    {
      ghost var s := View();
      assert Current(s, e);
      ResetKeepsOwn(s);
      var a := e.addr;
      var t := heap[a];
      phase := Resetting(phase.rest[1..], now);
      if t.Repeat() && TimerId(a, t.sequence) !in canceling {
        PoppedIsLoose(s, t.(expiration := now + t.Period()));
        Restart(a, now);
      } else {
        heap := heap - {a};
      }
    }

    /** The timer's new deadline, and its insertion under it. */
    method Restart(a: Addr, now: int)
      requires a in heap && (calling <==> phase.Calling?) && Numbered()
      requires Loose(View().(heap := heap[a := heap[a].(expiration := now + heap[a].Period())]), a)
      modifies this`heap, this`timers, this`active
      ensures Valid()
      ensures View() == Insert(old(View()).(heap := old(heap)[a := old(heap)[a].(expiration := now + old(heap)[a].Period())]), a)
    {
      heap := heap[a := heap[a].(expiration := now + heap[a].Period())];
      var earliest := InsertBoth(a);
    }
  }
}
