/**
 The channel index of src/net/channel.h and the epoll poller of src/net/epoll_poller.cpp: a three-state
 machine per channel that shadows the kernel's interest set.

 `P` is the type of channel pointers.  The kernel's set maps a descriptor to a mask and the pointer
 stored with it.  An `epoll_ctl` the kernel would refuse, or an assertion of the source that does not
 hold, sets `failed`.
 */
module EpollPollers {
  type Mask = bv16

  const NONE_EVENT: Mask := 0
  const READ_EVENT: Mask := 3   // POLLIN | POLLPRI
  const WRITE_EVENT: Mask := 4  // POLLOUT

  datatype Index = New | Added | Deleted

  datatype Chan = Chan(fd: int, events: Mask, index: Index)

  datatype Poller<P> = Poller(
    chans: map<P, Chan>,             // the channel objects of this loop
    channels: map<int, P>,           // channels_
    kernel: map<int, (Mask, P)>,     // the epoll set
    failed: bool)

  datatype Op = CtlAdd | CtlMod | CtlDel

  /** epoll_ctl: adding wants an absent descriptor, changing and deleting a present one. */
  function Ctl<P>(p: Poller<P>, op: Op, c: P): (p': Poller<P>)
    requires c in p.chans
  {
    var ch := p.chans[c];
    if (op == CtlAdd) == (ch.fd in p.kernel) then p.(failed := true)
    else if op == CtlDel then p.(kernel := p.kernel - {ch.fd})
    else p.(kernel := p.kernel[ch.fd := (ch.events, c)])
  }

  function WithIndex<P>(p: Poller<P>, c: P, index: Index): (p': Poller<P>)
    requires c in p.chans
  {
    p.(chans := p.chans[c := p.chans[c].(index := index)])
  }

  function UpdateChannel<P>(p: Poller<P>, c: P): (p': Poller<P>)
    requires c in p.chans
  {
    var ch := p.chans[c];
    match ch.index
    case New =>
      if ch.fd in p.channels then p.(failed := true)
      else Ctl(WithIndex(p.(channels := p.channels[ch.fd := c]), c, Added), CtlAdd, c)
    case Deleted =>
      if ch.fd !in p.channels || p.channels[ch.fd] != c then p.(failed := true)
      else Ctl(WithIndex(p, c, Added), CtlAdd, c)
    case Added =>
      if ch.fd !in p.channels || p.channels[ch.fd] != c then p.(failed := true)
      else if ch.events == NONE_EVENT then WithIndex(Ctl(p, CtlDel, c), c, Deleted)
      else Ctl(p, CtlMod, c)
  }

  function RemoveChannel<P>(p: Poller<P>, c: P): (p': Poller<P>)
    requires c in p.chans
  {
    var ch := p.chans[c];
    if ch.fd !in p.channels || p.channels[ch.fd] != c || ch.events != NONE_EVENT || ch.index == New then
      p.(failed := true)
    else
      var q := p.(channels := p.channels - {ch.fd});
      WithIndex(if ch.index == Added then Ctl(q, CtlDel, c) else q, c, New)
  }

  // ---------------------------------------------------------------------------------------------
  // Runs

  datatype Step<P> =
    | Create(c: P, fd: int)
    | EnableReading(c: P)
    | EnableWriting(c: P)
    | DisableWriting(c: P)
    | DisableAll(c: P)
    | Remove(c: P)
    | Destroy(c: P)

  /** Live descriptors are distinct, calls go to live channels, `remove` wants a registered channel
      without interest, and a channel is destroyed only when it is not registered. */
  predicate Enabled<P>(p: Poller<P>, step: Step<P>) {
    match step
    case Create(c, fd) => c !in p.chans && forall d :: d in p.chans ==> p.chans[d].fd != fd
    case Remove(c) => c in p.chans && p.chans[c].events == NONE_EVENT && p.chans[c].index != New
    case Destroy(c) => c in p.chans && p.chans[c].index == New
    case _ => step.c in p.chans
  }

  /** The mask after a call that changes it. */
  function NewEvents<P>(p: Poller<P>, step: Step<P>): (m: Mask)
    requires step.c in p.chans
  {
    Masked(step, p.chans[step.c].events)
  }

  function Masked<P>(step: Step<P>, events: Mask): (m: Mask) {
    match step
    case EnableReading(_) => events | READ_EVENT
    case EnableWriting(_) => events | WRITE_EVENT
    case DisableWriting(_) => events & !WRITE_EVENT
    case DisableAll(_) => NONE_EVENT
    case _ => events
  }

  predicate ChangesMask<P>(step: Step<P>) {
    step.EnableReading? || step.EnableWriting? || step.DisableWriting? || step.DisableAll?
  }

  function SetEvents<P>(p: Poller<P>, c: P, events: Mask): (p': Poller<P>)
    requires c in p.chans
  {
    p.(chans := p.chans[c := p.chans[c].(events := events)])
  }

  function Next<P>(p: Poller<P>, step: Step<P>): (p': Poller<P>)
    requires Enabled(p, step)
  {
    match step
    case Create(c, fd) => p.(chans := p.chans[c := Chan(fd, NONE_EVENT, New)])
    case Remove(c) => RemoveChannel(p, c)
    case Destroy(c) => p.(chans := p.chans - {c})
    case _ => UpdateChannel(SetEvents(p, step.c, NewEvents(p, step)), step.c)
  }

  ghost predicate Run<P>(p: Poller<P>, steps: seq<Step<P>>, p': Poller<P>)
    decreases |steps|
  {
    if steps == [] then p' == p
    else Enabled(p, steps[0]) && Run(Next(p, steps[0]), steps[1..], p')
  }

  /** What the poller knows about one channel, apart from its mask. */
  predicate Shadowed<P>(p: Poller<P>, c: P)
    requires c in p.chans
  {
    var ch := p.chans[c];
    && (ch.index != New <==> ch.fd in p.channels)
    && (ch.index != New ==> p.channels[ch.fd] == c)
    && (ch.index == Added <==> ch.fd in p.kernel)
    && (ch.index == Added ==> p.kernel[ch.fd].1 == c)
  }

  predicate MaskAgrees<P>(p: Poller<P>, c: P)
    requires c in p.chans
  {
    var ch := p.chans[c];
    ch.index == Added && ch.fd in p.kernel ==> p.kernel[ch.fd].0 == ch.events
  }

  predicate DistinctFds<P>(p: Poller<P>) {
    forall c, d :: c in p.chans && d in p.chans && p.chans[c].fd == p.chans[d].fd ==> c == d
  }

  ghost predicate Registry<P>(p: Poller<P>) {
    && !p.failed
    && DistinctFds(p)
    && (forall c {:trigger Shadowed(p, c)} :: c in p.chans ==> Shadowed(p, c))
    && (forall fd {:trigger Backed(p, fd)} :: Backed(p, fd))
  }

  /** A descriptor in either map belongs to a live channel. */
  predicate Backed<P>(p: Poller<P>, fd: int) {
    && (fd in p.kernel ==> fd in p.channels)
    && (fd in p.channels ==> p.channels[fd] in p.chans && p.chans[p.channels[fd]].fd == fd)
  }

  /** The kernel holds exactly the added channels, each with its own mask and pointer; `channels_` holds
      exactly the added and the deleted ones; nothing has been refused. */
  ghost predicate Inv<P>(p: Poller<P>) {
    && Registry(p)
    && forall c {:trigger MaskAgrees(p, c)} :: c in p.chans ==> MaskAgrees(p, c)
  }

  /** The state after one channel's mask and index have been set, and the two maps brought in line. */
  function Rewritten<P>(p: Poller<P>, c: P, events: Mask, index: Index): (p': Poller<P>)
    requires c in p.chans
  {
    var fd := p.chans[c].fd;
    p.(chans := p.chans[c := Chan(fd, events, index)],
       channels := if index == New then p.channels - {fd} else p.channels[fd := c],
       kernel := if index == Added then p.kernel[fd := (events, c)] else p.kernel - {fd})
  }

  lemma RewrittenKeepsInv<P>(p: Poller<P>, c: P, events: Mask, index: Index)
    requires Inv(p) && c in p.chans
    ensures Inv(Rewritten(p, c, events, index))
  {
    var r := Rewritten(p, c, events, index);
    forall d | d in r.chans
      ensures Shadowed(r, d)
    {
      assert Shadowed(p, d);
    }
    forall fd
      ensures Backed(r, fd)
    {
      assert Backed(p, fd);
    }
    forall d | d in r.chans
      ensures MaskAgrees(r, d)
    {
      assert Shadowed(p, d) && MaskAgrees(p, d);
    }
  }

  /** An update after a change of mask: only a registered channel that has lost all interest leaves the
      kernel's set. */
  lemma UpdateEffect<P>(p: Poller<P>, c: P, events: Mask)
    requires !p.failed && c in p.chans && Shadowed(p, c)
    ensures UpdateChannel(SetEvents(p, c, events), c) ==
            Rewritten(p, c, events, if p.chans[c].index == Added && events == NONE_EVENT then Deleted else Added)
  {
    var ch := p.chans[c];
    if ch.index != New {
      assert p.channels[ch.fd := c] == p.channels;
    }
  }

  lemma RemoveEffect<P>(p: Poller<P>, c: P)
    requires !p.failed && c in p.chans && Shadowed(p, c)
    requires p.chans[c].events == NONE_EVENT && p.chans[c].index != New
    ensures RemoveChannel(p, c) == Rewritten(p, c, NONE_EVENT, New)
  {
    var ch := p.chans[c];
    if ch.index == Deleted {
      assert p.kernel - {ch.fd} == p.kernel;
    }
  }

  lemma StepKeepsInv<P>(p: Poller<P>, step: Step<P>)
    requires Inv(p) && Enabled(p, step)
    ensures Inv(Next(p, step))
  {
    if step.Create? {
      CreateKeepsInv(p, step.c, step.fd);
    } else if step.Destroy? {
      DestroyKeepsInv(p, step.c);
    } else if step.Remove? {
      RemoveEffect(p, step.c);
      RewrittenKeepsInv(p, step.c, NONE_EVENT, New);
    } else {
      var events := NewEvents(p, step);
      UpdateEffect(p, step.c, events);
      RewrittenKeepsInv(p, step.c, events,
                        if p.chans[step.c].index == Added && events == NONE_EVENT then Deleted else Added);
    }
  }

  lemma CreateKeepsInv<P>(p: Poller<P>, c: P, fd: int)
    requires Inv(p) && c !in p.chans
    requires forall d :: d in p.chans ==> p.chans[d].fd != fd
    ensures Inv(p.(chans := p.chans[c := Chan(fd, NONE_EVENT, New)]))
  {
    var r := p.(chans := p.chans[c := Chan(fd, NONE_EVENT, New)]);
    CreateKeepsDistinct(p, c, fd);
    forall d | d in r.chans
      ensures Shadowed(r, d) && MaskAgrees(r, d)
    {
      CreateKeepsShadowed(p, c, fd, d);
    }
    forall g
      ensures Backed(r, g)
    {
      assert Backed(p, g);
    }
  }

  lemma CreateKeepsDistinct<P>(p: Poller<P>, c: P, fd: int)
    requires DistinctFds(p) && c !in p.chans
    requires forall d :: d in p.chans ==> p.chans[d].fd != fd
    ensures DistinctFds(p.(chans := p.chans[c := Chan(fd, NONE_EVENT, New)]))
  {
  }

  lemma CreateKeepsShadowed<P>(p: Poller<P>, c: P, fd: int, d: P)
    requires Inv(p) && c !in p.chans && (d == c || d in p.chans)
    requires forall d :: d in p.chans ==> p.chans[d].fd != fd
    ensures var r := p.(chans := p.chans[c := Chan(fd, NONE_EVENT, New)]);
            Shadowed(r, d) && MaskAgrees(r, d)
  {
    if d == c {
      assert Backed(p, fd);
    } else {
      assert Shadowed(p, d) && MaskAgrees(p, d);
    }
  }

  lemma DestroyKeepsInv<P>(p: Poller<P>, c: P)
    requires Inv(p) && Enabled(p, Destroy(c))
    ensures Inv(Next(p, Destroy(c)))
  {
    var r := Next(p, Destroy(c));
    assert Shadowed(p, c);
    forall d | d in r.chans
      ensures Shadowed(r, d)
      ensures MaskAgrees(r, d)
    {
      assert Shadowed(p, d) && MaskAgrees(p, d);
    }
    forall fd
      ensures Backed(r, fd)
    {
      assert Backed(p, fd);
    }
  }

  function EmptyPoller<P>(): (p: Poller<P>) {
    Poller(map[], map[], map[], false)
  }

  lemma {:induction false} RunKeepsInv<P>(p: Poller<P>, steps: seq<Step<P>>, p': Poller<P>)
    requires Inv(p) && Run(p, steps, p')
    ensures Inv(p')
    decreases |steps|
  {
    if steps != [] {
      StepKeepsInv(p, steps[0]);
      RunKeepsInv(Next(p, steps[0]), steps[1..], p');
    }
  }

  /** Over every run of calls on a new poller it shadows the kernel, and every ADD goes to an absent
      descriptor, every MOD and DEL to a present one. */
  lemma PollerShadowsKernel<P>(steps: seq<Step<P>>, p: Poller<P>)
    requires Run(EmptyPoller(), steps, p)
    ensures KernelIsShadowed(p)
  {
    RunKeepsInv(EmptyPoller(), steps, p);
    InvMeansShadowed(p);
  }

  ghost predicate KernelIsShadowed<P>(p: Poller<P>) {
    && !p.failed
    && p.kernel.Keys == (set c | c in p.chans && p.chans[c].index == Added :: p.chans[c].fd)
    && p.channels.Keys == (set c | c in p.chans && p.chans[c].index != New :: p.chans[c].fd)
    && (forall c :: c in p.chans && p.chans[c].index == Added ==> p.kernel[p.chans[c].fd] == (p.chans[c].events, c))
    && (forall c :: c in p.chans && p.chans[c].index != New ==> p.channels[p.chans[c].fd] == c)
  }

  lemma InvMeansShadowed<P>(p: Poller<P>)
    requires Inv(p)
    ensures KernelIsShadowed(p)
  {
    assert forall c :: c in p.chans ==> Shadowed(p, c) && MaskAgrees(p, c);
    forall fd | fd in p.channels
      ensures fd in (set c | c in p.chans && p.chans[c].index != New :: p.chans[c].fd)
    {
      assert Backed(p, fd) && Shadowed(p, p.channels[fd]);
    }
    forall fd | fd in p.kernel
      ensures fd in (set c | c in p.chans && p.chans[c].index == Added :: p.chans[c].fd)
    {
      assert Backed(p, fd);
      var c := p.channels[fd];
      assert Shadowed(p, c) && p.chans[c].fd == fd && p.chans[c].index == Added;
    }
  }

  // ---------------------------------------------------------------------------------------------
  // What a mask says

  /** Reading: the last call on this channel that decides it, since the channel was made, asks for it. */
  ghost predicate AskedToRead<P>(steps: seq<Step<P>>, c: P) {
    exists i :: 0 <= i < |steps| && steps[i] == EnableReading(c) &&
      forall j :: i < j < |steps| ==> !EndsReading(steps[j], c)
  }

  predicate EndsReading<P(==)>(step: Step<P>, c: P) {
    step.c == c && (step.DisableAll? || step.Create?)
  }

  ghost predicate AskedToWrite<P>(steps: seq<Step<P>>, c: P) {
    exists i :: 0 <= i < |steps| && steps[i] == EnableWriting(c) &&
      forall j :: i < j < |steps| ==> !EndsWriting(steps[j], c)
  }

  predicate EndsWriting<P(==)>(step: Step<P>, c: P) {
    step.c == c && (step.DisableWriting? || step.DisableAll? || step.Create?)
  }

  lemma AskedToReadNow<P>(before: seq<Step<P>>, step: Step<P>, c: P)
    ensures AskedToRead(before + [step], c) <==>
            step == EnableReading(c) || (AskedToRead(before, c) && !EndsReading(step, c))
  {
    var steps := before + [step];
    if step == EnableReading(c) {
      assert steps[|before|] == step;
    }
    if AskedToRead(before, c) && !EndsReading(step, c) {
      var i :| 0 <= i < |before| && before[i] == EnableReading(c) &&
               forall j :: i < j < |before| ==> !EndsReading(before[j], c);
      assert steps[i] == before[i];
    }
    if AskedToRead(steps, c) && step != EnableReading(c) {
      var i :| 0 <= i < |steps| && steps[i] == EnableReading(c) &&
               forall j :: i < j < |steps| ==> !EndsReading(steps[j], c);
      assert i < |before| && before[i] == steps[i] && steps[|before|] == step;
      assert forall j :: i < j < |before| ==> before[j] == steps[j];
    }
  }

  lemma AskedToWriteNow<P>(before: seq<Step<P>>, step: Step<P>, c: P)
    ensures AskedToWrite(before + [step], c) <==>
            step == EnableWriting(c) || (AskedToWrite(before, c) && !EndsWriting(step, c))
  {
    var steps := before + [step];
    if step == EnableWriting(c) {
      assert steps[|before|] == step;
    }
    if AskedToWrite(before, c) && !EndsWriting(step, c) {
      var i :| 0 <= i < |before| && before[i] == EnableWriting(c) &&
               forall j :: i < j < |before| ==> !EndsWriting(before[j], c);
      assert steps[i] == before[i];
    }
    if AskedToWrite(steps, c) && step != EnableWriting(c) {
      var i :| 0 <= i < |steps| && steps[i] == EnableWriting(c) &&
               forall j :: i < j < |steps| ==> !EndsWriting(steps[j], c);
      assert i < |before| && before[i] == steps[i] && steps[|before|] == step;
      assert forall j :: i < j < |before| ==> before[j] == steps[j];
    }
  }

  /** A mask of exactly these two interests: POLLIN and POLLPRI together, and POLLOUT. */
  predicate Says(events: Mask, reading: bool, writing: bool) {
    && events & 3 == (if reading then 3 else 0)
    && events & 4 == (if writing then 4 else 0)
    && events & 0xfff8 == 0
  }

  lemma MaskedSays<P>(step: Step<P>, events: Mask, reading: bool, writing: bool)
    requires Says(events, reading, writing)
    ensures step.EnableReading? ==> Says(Masked(step, events), true, writing)
    ensures step.EnableWriting? ==> Says(Masked(step, events), reading, true)
    ensures step.DisableWriting? ==> Says(Masked(step, events), reading, false)
    ensures step.DisableAll? ==> Says(Masked(step, events), false, false)
  {
  }

  /** Each live channel's mask is what has been asked of it. */
  ghost predicate MasksFollow<P>(steps: seq<Step<P>>, p: Poller<P>) {
    forall c :: c in p.chans ==> Says(p.chans[c].events, AskedToRead(steps, c), AskedToWrite(steps, c))
  }

  lemma StepKeepsMasks<P>(before: seq<Step<P>>, p: Poller<P>, step: Step<P>)
    requires Inv(p) && Enabled(p, step) && MasksFollow(before, p)
    ensures MasksFollow(before + [step], Next(p, step))
  {
    var r := Next(p, step);
    forall c | c in r.chans
      ensures Says(r.chans[c].events, AskedToRead(before + [step], c), AskedToWrite(before + [step], c))
    {
      AskedToReadNow(before, step, c);
      AskedToWriteNow(before, step, c);
      EventsAfter(p, step, c);
      if ChangesMask(step) && c == step.c {
        MaskedSays(step, p.chans[c].events, AskedToRead(before, c), AskedToWrite(before, c));
      }
    }
  }

  lemma EventsAfter<P>(p: Poller<P>, step: Step<P>, c: P)
    requires Inv(p) && Enabled(p, step) && c in Next(p, step).chans
    ensures step.Create? && c == step.c ==> Next(p, step).chans[c].events == NONE_EVENT
    ensures !(step.Create? && c == step.c) ==>
              c in p.chans &&
              Next(p, step).chans[c].events ==
              if ChangesMask(step) && c == step.c then Masked(step, p.chans[c].events) else p.chans[c].events
  {
    if step.Remove? {
      assert Shadowed(p, step.c);
      RemoveEffect(p, step.c);
    } else if ChangesMask(step) {
      assert Shadowed(p, step.c);
      UpdateEffect(p, step.c, NewEvents(p, step));
    }
  }

  lemma {:induction false} RunKeepsMasks<P>(before: seq<Step<P>>, p: Poller<P>, steps: seq<Step<P>>, p': Poller<P>)
    requires Inv(p) && MasksFollow(before, p) && Run(p, steps, p')
    ensures MasksFollow(before + steps, p')
    decreases |steps|
  {
    if steps == [] {
      assert before + steps == before;
    } else {
      StepKeepsInv(p, steps[0]);
      StepKeepsMasks(before, p, steps[0]);
      RunKeepsMasks(before + [steps[0]], Next(p, steps[0]), steps[1..], p');
      assert before + [steps[0]] + steps[1..] == before + steps;
    }
  }

  /** Over every run on a new poller, a live channel listens for reading, and for writing, exactly when
      the last call that decides it asked for it, and for nothing else; and a registered one has told the
      kernel so. */
  lemma MasksAreWhatWasAsked<P>(steps: seq<Step<P>>, p: Poller<P>, c: P)
    requires Run(EmptyPoller(), steps, p) && c in p.chans
    ensures Says(p.chans[c].events, AskedToRead(steps, c), AskedToWrite(steps, c))
    ensures p.chans[c].index == Added ==>
              p.chans[c].fd in p.kernel && Says(p.kernel[p.chans[c].fd].0, AskedToRead(steps, c), AskedToWrite(steps, c))
  {
    RunKeepsMasks([], EmptyPoller(), steps, p);
    assert [] + steps == steps;
    PollerShadowsKernel(steps, p);
  }

  // ---------------------------------------------------------------------------------------------
  // Channels without interest

  /** No channel without interest is in the kernel's set. */
  predicate Quiet<P>(p: Poller<P>) {
    forall c :: c in p.chans && p.chans[c].events == NONE_EVENT ==> p.chans[c].index != Added
  }

  /** That is not an invariant: a call that leaves a mask empty keeps it exactly when the channel was
      registered before, since the poller adds every other channel it is told about. */
  lemma QuietKeptIff<P>(p: Poller<P>, step: Step<P>)
    requires Inv(p) && Quiet(p) && Enabled(p, step) && ChangesMask(step)
    ensures Quiet(Next(p, step)) <==> NewEvents(p, step) != NONE_EVENT || p.chans[step.c].index == Added
  {
    var c := step.c;
    var r := Next(p, step);
    UpdateEffect(p, c, NewEvents(p, step));
    assert r.chans[c].events == NewEvents(p, step);
  }

  /** Interest in reading, or in writing, keeps a channel registered. */
  lemma InterestMeansRegistered<P>(p: Poller<P>, step: Step<P>)
    requires Inv(p) && Enabled(p, step) && ChangesMask(step) && NewEvents(p, step) != NONE_EVENT
    ensures Next(p, step).chans[step.c].index == Added
  {
    UpdateEffect(p, step.c, NewEvents(p, step));
  }

  // ---------------------------------------------------------------------------------------------
  // The objects

  class Channel {
    const fd: int
    var events: Mask
    var revents: Mask
    var index: Index

    constructor (fd: int)
      ensures this.fd == fd && events == NONE_EVENT && revents == 0 && index == New
    {
      this.fd := fd;
      events, revents, index := NONE_EVENT, 0, New;
    }

    method SetMask(step: Step<Channel>)
      requires ChangesMask(step)
      modifies this`events
      ensures events == Masked(step, old(events))
    {
      if step.EnableReading? {
        events := events | READ_EVENT;
      } else if step.EnableWriting? {
        events := events | WRITE_EVENT;
      } else if step.DisableWriting? {
        events := events & !WRITE_EVENT;
      } else {
        events := NONE_EVENT;
      }
    }

    predicate IsNoneEvent()
      reads this
    {
      events == NONE_EVENT
    }
  }

  class EpollPoller {
    var channels: map<int, Channel>
    var kernel: map<int, (Mask, Channel)>

    ghost function View(live: set<Channel>): (p: Poller<Channel>)
      reads this, live
    {
      Poller(map c | c in live :: Chan(c.fd, c.events, c.index), channels, kernel, false)
    }

    constructor ()
      ensures View({}) == EmptyPoller() && Inv(View({}))
    {
      channels, kernel := map[], map[];
    }

    /** The call that goes to the kernel; it is only ever made where the kernel accepts it. */
    method Update(op: Op, c: Channel)
      requires op == CtlAdd <==> c.fd !in kernel
      modifies this`kernel
      ensures kernel == if op == CtlDel then old(kernel) - {c.fd} else old(kernel)[c.fd := (c.events, c)]
    {
      if op == CtlDel {
        kernel := kernel - {c.fd};
      } else {
        kernel := kernel[c.fd := (c.events, c)];
      }
    }

    method UpdateChannelInPlace(c: Channel, ghost live: set<Channel>)
      requires c in live && Shadowed(View(live), c)
      modifies this, c`index
      ensures View(live) == UpdateChannel(old(View(live)), c)
    {
      ghost var p := View(live);
      ghost var kept := live - {c};
      if c.index == New || c.index == Deleted {
        if c.index == New {
          channels := channels[c.fd := c];
        }
        c.index := Added;
        Update(CtlAdd, c);
      } else if c.IsNoneEvent() {
        Update(CtlDel, c);
        c.index := Deleted;
      } else {
        Update(CtlMod, c);
      }
      assert View(live).chans == p.chans[c := Chan(c.fd, c.events, c.index)];
    }

    method RemoveChannelInPlace(c: Channel, ghost live: set<Channel>)
      requires c in live && Shadowed(View(live), c)
      requires c.IsNoneEvent() && c.index != New
      modifies this, c`index
      ensures View(live) == RemoveChannel(old(View(live)), c)
    {
      ghost var p := View(live);
      channels := channels - {c.fd};
      if c.index == Added {
        Update(CtlDel, c);
      }
      c.index := New;
      assert View(live).chans == p.chans[c := Chan(c.fd, c.events, c.index)];
    }

    /** enable_reading, enable_writing, disable_writing and disable_all, each followed by its update. */
    method Perform(step: Step<Channel>, ghost live: set<Channel>)
      requires step.c in live && Inv(View(live)) && ChangesMask(step)
      modifies this, step.c`index, step.c`events
      ensures Inv(View(live)) && View(live) == Next(old(View(live)), step)
    {
      ghost var p := View(live);
      var c := step.c;
      StepKeepsInv(p, step);
      assert Shadowed(p, c);
      c.SetMask(step);
      assert View(live).chans == p.chans[c := p.chans[c].(events := c.events)];
      UpdateChannelInPlace(c, live);
    }

    /** The loop over the kernel's report: every reported pointer is a live, registered channel of this
        poller, so following it is safe; each learns its own mask, and no other channel is touched. */
    method FillActiveChannels(events: seq<(int, Mask)>, ghost live: set<Channel>) returns (active: seq<Channel>)
      requires Inv(View(live))
      requires forall i :: 0 <= i < |events| ==> events[i].0 in kernel
      modifies live`revents
      ensures |active| == |events| && View(live) == old(View(live))
      ensures forall i :: 0 <= i < |active| ==>
                active[i] in live && active[i].fd == events[i].0 && active[i].index == Added
      ensures forall i :: 0 <= i < |active| && LastReport(events, i) ==> active[i].revents == events[i].1
      ensures forall c :: c in live && c !in active ==> c.revents == old(c.revents)
    {
      active := [];
      for i := 0 to |events|
        invariant |active| == i && View(live) == old(View(live))
        invariant forall k :: 0 <= k < i ==>
                    active[k] in live && active[k].fd == events[k].0 && active[k].index == Added
        invariant forall k :: 0 <= k < i && LastReport(events[..i], k) ==> active[k].revents == events[k].1
        invariant forall c :: c in live && c !in active ==> c.revents == old(c.revents)
      {
        LastReportBefore(events, i);
        var c := Report(events[i].0, events[i].1, live);
        active := active + [c];
      }
      assert events[..|events|] == events;
    }

    /** One reported descriptor. */
    method Report(fd: int, mask: Mask, ghost live: set<Channel>) returns (c: Channel)
      requires Inv(View(live)) && fd in kernel
      modifies live`revents
      ensures c in live && c.fd == fd && c.index == Added && c.revents == mask
      ensures forall d :: d in live && d != c ==> d.revents == old(d.revents)
      ensures View(live) == old(View(live))
    {
      ReportedIsLive(View(live), fd);
      c := kernel[fd].1;
      assert c in View(live).chans;
      c.revents := mask;
    }
  }

  /** No later report is about the same descriptor; the kernel makes only one for each. */
  predicate LastReport(events: seq<(int, Mask)>, i: nat) {
    i < |events| && forall j :: i < j < |events| ==> events[j].0 != events[i].0
  }

  lemma LastReportBefore(events: seq<(int, Mask)>, i: nat)
    requires i < |events|
    ensures forall k :: 0 <= k < i && LastReport(events[..i + 1], k) ==>
              LastReport(events[..i], k) && events[k].0 != events[i].0
  {
    forall k | 0 <= k < i && LastReport(events[..i + 1], k)
      ensures LastReport(events[..i], k) && events[k].0 != events[i].0
    {
      var more := events[..i + 1];
      assert more[i] == events[i] && more[k].0 != more[i].0;
      assert forall j :: k < j < i ==> events[..i][j] == more[j];
    }
  }

  lemma ReportedIsLive<P>(p: Poller<P>, fd: int)
    requires Inv(p) && fd in p.kernel
    ensures p.kernel[fd].1 in p.chans
    ensures p.chans[p.kernel[fd].1].fd == fd && p.chans[p.kernel[fd].1].index == Added
  {
    assert Backed(p, fd) && Shadowed(p, p.channels[fd]);
  }
}
