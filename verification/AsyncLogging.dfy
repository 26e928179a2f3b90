/**
 The double-buffering protocol of src/base/log/async_logging.cpp: producers append under the lock, a
 writer thread takes every filled buffer in one locked swap and then, outside the lock, hands them to
 the file and recycles two of them.

 A buffer is represented by the lines in its filled part; `null` pointers are `None`.  A dereference
 of null or a `back()` of an empty vector sets `crashed`.
 */
module AsyncLogging {
  import opened Bytes
  import opened LogStreams

  const LARGE_BUFFER_SIZE: nat := 4000 * 1000

  type Lines = seq<string>

  /** Where the writer thread is: at the lock, holding batches not yet written, or after writing them. */
  datatype WriterPc = AtLock | Draining | Refilling

  datatype State = State(
    current: Option<Lines>, next: Option<Lines>, buffers: seq<Lines>,
    pc: WriterPc, buffer1: Option<Lines>, buffer2: Option<Lines>, toWrite: seq<Lines>,
    handed: Lines,      // lines of every buffer given to the file, in order
    accepted: Lines,    // every appended line short enough for a buffer, in order
    crashed: bool)

  const INIT := State(Some([]), Some([]), [], AtLock, Some([]), Some([]), [], [], [], false)

  /** One locked call of `append`. */
  function AppendLine(s: State, line: string): (s': State) {
    if s.current.None? then s.(crashed := true)
    else
      var kept := if |line| < LARGE_BUFFER_SIZE then s.accepted + [line] else s.accepted;
      if |Flatten(s.current.value)| + |line| < LARGE_BUFFER_SIZE then
        s.(current := Some(s.current.value + [line]), accepted := kept)
      else
        var spare := if s.next.Some? then s.next.value else [];
        s.(buffers := s.buffers + [s.current.value], next := None, accepted := kept,
           current := Some(if |Flatten(spare)| + |line| < LARGE_BUFFER_SIZE then spare + [line] else spare))
  }

  /** The writer's locked section; the condition wait before it only decides when it happens. */
  function Swap(s: State): (s': State) {
    if s.current.None? then s.(crashed := true)
    else
      s.(pc := Draining, buffers := s.toWrite, toWrite := s.buffers + [s.current.value],
         current := s.buffer1, buffer1 := None,
         next := if s.next.Some? then s.next else s.buffer2,
         buffer2 := if s.next.Some? then s.buffer2 else None)
  }

  function Drain(s: State): (s': State) {
    s.(pc := Refilling, handed := s.handed + Flatten(s.toWrite))
  }

  /** Keep two buffers at most, take back what was lent, drop the rest. */
  function Refill(s: State): (s': State) {
    var kept := if |s.toWrite| > 2 then s.toWrite[..2] else s.toWrite;
    var needed := (if s.buffer1.None? then 1 else 0) + if s.buffer2.None? then 1 else 0;
    if |kept| < needed then s.(crashed := true)
    else s.(pc := AtLock, buffer1 := Some([]), buffer2 := Some([]), toWrite := [])
  }

  datatype Step = AppendStep(line: string) | SwapStep | DrainStep | RefillStep

  predicate Enabled(s: State, step: Step) {
    match step
    case AppendStep(_) => true
    case SwapStep => s.pc == AtLock
    case DrainStep => s.pc == Draining
    case RefillStep => s.pc == Refilling
  }

  function Next(s: State, step: Step): (s': State) {
    match step
    case AppendStep(line) => AppendLine(s, line)
    case SwapStep => Swap(s)
    case DrainStep => Drain(s)
    case RefillStep => Refill(s)
  }

  /** Every interleaving of any number of producers with the writer. */
  ghost predicate Run(s: State, steps: seq<Step>, s': State)
    decreases |steps|
  {
    if steps == [] then s' == s
    else Enabled(s, steps[0]) && Run(Next(s, steps[0]), steps[1..], s')
  }

  /** Lines taken from the producers but not yet given to the file. */
  function InHand(s: State): (r: Lines) {
    if s.pc == Draining then Flatten(s.toWrite) else []
  }

  predicate Empty(b: Option<Lines>) {
    b.Some? && b.value == []
  }

  ghost predicate Inv(s: State) {
    && !s.crashed
    && s.current.Some? && (s.next.None? || Empty(s.next))
    && (s.next.None? ==> s.buffers != [])
    && (s.pc == AtLock ==> Empty(s.buffer1) && Empty(s.buffer2) && s.toWrite == [])
    && (s.pc != AtLock ==> s.buffer1.None? && s.toWrite != [] && (s.buffer2.None? || Empty(s.buffer2)))
    && (s.pc != AtLock && s.buffer2.None? ==> |s.toWrite| >= 2)
    && s.handed + (InHand(s) + (Flatten(s.buffers) + s.current.value)) == s.accepted
  }

  lemma AppendKeepsInv(s: State, line: string)
    requires Inv(s)
    ensures Inv(AppendLine(s, line))
  {
    var cur := s.current.value;
    FlattenAppend(s.buffers, [cur]);
    FlattenOne(cur);
    var front := s.handed + (InHand(s) + (Flatten(s.buffers) + cur));
    var s' := AppendLine(s, line);
    assert InHand(s') == InHand(s);
    assert front + [line] == s.handed + (InHand(s) + (Flatten(s.buffers) + (cur + [line])));
    assert front + [line] == s.handed + (InHand(s) + ((Flatten(s.buffers) + cur) + [line]));
    assert Flatten<char>([]) == "";
    assert [] + [line] == [line];
    assert (Flatten(s.buffers) + cur) + [] == Flatten(s.buffers) + cur;
  }

  lemma WriterKeepsInv(s: State, step: Step)
    requires Inv(s) && Enabled(s, step) && !step.AppendStep?
    ensures Inv(Next(s, step))
  {
    match step
    case SwapStep =>
      var cur := s.current.value;
      FlattenAppend(s.buffers, [cur]);
      FlattenOne(cur);
      assert Flatten<string>([]) == [];
      var all := Flatten(s.buffers) + cur;
      assert [] + all == all && all + ([] + []) == all;
    case DrainStep =>
      var out := Flatten(s.toWrite);
      var rest := Flatten(s.buffers) + s.current.value;
      assert [] + rest == rest;
      assert (s.handed + out) + rest == s.handed + (out + rest);
    case RefillStep =>
  }

  lemma StepKeepsInv(s: State, step: Step)
    requires Inv(s) && Enabled(s, step)
    ensures Inv(Next(s, step))
  {
    if step.AppendStep? {
      AppendKeepsInv(s, step.line);
    } else {
      WriterKeepsInv(s, step);
    }
  }

  lemma {:induction false} RunKeepsInv(s: State, steps: seq<Step>, s': State)
    requires Inv(s) && Run(s, steps, s')
    ensures Inv(s')
    decreases |steps|
  {
    if steps != [] {
      StepKeepsInv(s, steps[0]);
      RunKeepsInv(Next(s, steps[0]), steps[1..], s');
    }
  }

  /** In every interleaving: the lines handed to the file, those in the writer's hands, those in
      `buffers_` and those in `current_buffer_` are, in this order, exactly the lines accepted, each
      whole and once; no pop or dereference is ever unsafe; and a null `next_buffer_` means that
      `buffers_` is not empty. */
  lemma HandOff(steps: seq<Step>, s: State)
    requires Run(INIT, steps, s)
    ensures !s.crashed && s.current.Some?
    ensures s.handed + InHand(s) + Flatten(s.buffers) + s.current.value == s.accepted
    ensures s.next.None? ==> s.buffers != []
  {
    InitHolds();
    RunKeepsInv(INIT, steps, s);
    Reassociate(InHand(s), Flatten(s.buffers), s.current.value);
    Reassociate(s.handed, InHand(s), Flatten(s.buffers));
    Reassociate(s.handed, InHand(s) + Flatten(s.buffers), s.current.value);
  }

  lemma InitHolds()
    ensures Inv(INIT)
  {
    assert Flatten<string>([]) == [];
  }

  /** Nothing else is lost: the accepted lines are the appended lines shorter than a buffer. */
  lemma {:induction false} AcceptedAreShortLines(s: State, steps: seq<Step>, s': State)
    requires Inv(s) && Run(s, steps, s')
    ensures s'.accepted == s.accepted + ShortLines(steps)
    decreases |steps|
  {
    if steps == [] {
      assert s.accepted + [] == s.accepted;
    } else {
      StepKeepsInv(s, steps[0]);
      AcceptedAreShortLines(Next(s, steps[0]), steps[1..], s');
      StepAccepts(s, steps[0]);
      Reassociate(s.accepted, ShortLine(steps[0]), ShortLines(steps[1..]));
    }
  }

  lemma StepAccepts(s: State, step: Step)
    requires Inv(s) && Enabled(s, step)
    ensures Next(s, step).accepted == s.accepted + ShortLine(step)
  {
    assert s.accepted + [] == s.accepted;
  }

  function ShortLine(step: Step): (r: Lines) {
    if step.AppendStep? && |step.line| < LARGE_BUFFER_SIZE then [step.line] else []
  }

  function ShortLines(steps: seq<Step>): (r: Lines) {
    if steps == [] then [] else ShortLine(steps[0]) + ShortLines(steps[1..])
  }

  // ---------------------------------------------------------------------------------------------
  // Capacity and rotation

  predicate Fits(lines: Lines) {
    |Flatten(lines)| < LARGE_BUFFER_SIZE
  }

  predicate Small(b: Option<Lines>) {
    b.Some? ==> Fits(b.value)
  }

  predicate WithinCapacity(s: State) {
    && Small(s.current) && Small(s.next) && Small(s.buffer1) && Small(s.buffer2)
    && (forall b :: b in s.buffers ==> Fits(b))
    && (forall b :: b in s.toWrite ==> Fits(b))
  }

  lemma StepKeepsCapacity(s: State, step: Step)
    requires Inv(s) && WithinCapacity(s) && Enabled(s, step)
    ensures WithinCapacity(Next(s, step))
  {
    assert Flatten<char>([]) == "" && Flatten<string>([]) == [];
    if step.AppendStep? {
      FlattenAppend(s.current.value, [step.line]);
      FlattenOne(step.line);
      assert [] + [step.line] == [step.line];
    }
  }

  lemma {:induction false} RunKeepsCapacity(s: State, steps: seq<Step>, s': State)
    requires Inv(s) && WithinCapacity(s) && Run(s, steps, s')
    ensures Inv(s') && WithinCapacity(s')
    decreases |steps|
  {
    if steps != [] {
      StepKeepsInv(s, steps[0]);
      StepKeepsCapacity(s, steps[0]);
      RunKeepsCapacity(Next(s, steps[0]), steps[1..], s');
    }
  }

  /** In every interleaving, no buffer ever holds as many bytes as it has room for. */
  lemma NoBufferOverflows(steps: seq<Step>, s: State)
    requires Run(INIT, steps, s)
    ensures WithinCapacity(s)
  {
    InitHolds();
    RunKeepsCapacity(INIT, steps, s);
  }

  /** In every reachable state an append leaves `buffers_` alone exactly when the line fits in the free
      bytes of `current_buffer_`.  Otherwise it hands that buffer over, whole and last, and the line begins
      a fresh one, or is dropped when no buffer could hold it. */
  lemma RotatesIff(steps: seq<Step>, s: State, line: string)
    requires Run(INIT, steps, s)
    ensures s.current.Some?
    ensures var cur := s.current.value;
            var r := Next(s, AppendStep(line));
            && (r.buffers == s.buffers <==> |Flatten(cur)| + |line| < LARGE_BUFFER_SIZE)
            && (r.buffers == s.buffers ==> r.current == Some(cur + [line]) && r.next == s.next)
            && (r.buffers != s.buffers ==>
                  && r.buffers == s.buffers + [cur] && r.next.None?
                  && r.current == Some(if |line| < LARGE_BUFFER_SIZE then [line] else []))
  {
    InitHolds();
    RunKeepsInv(INIT, steps, s);
    assert Flatten<char>([]) == "" && [] + [line] == [line];
    assert |s.buffers + [s.current.value]| == |s.buffers| + 1;
  }

  /** An append does to the bytes of the buffer it ends in what the fixed-size buffer does. */
  lemma LinesAreBytes(s: State, line: string)
    requires Inv(s)
    ensures var r := AppendLine(s, line);
            && r.current.Some?
            && Flatten(r.current.value) ==
               FixedAppend(LARGE_BUFFER_SIZE, if r.buffers == s.buffers then Flatten(s.current.value) else "", line)
  {
    FlattenAppend(s.current.value, [line]);
    FlattenOne(line);
    assert Flatten<char>([]) == "" && [] + [line] == [line] && "" + line == line;
    assert |s.buffers + [s.current.value]| == |s.buffers| + 1;
  }

  /** One pass of the writer hands over every line accepted before its swap, whatever is appended while
      it writes. */
  lemma PassHandsOverAll(steps: seq<Step>, s: State, appends: seq<Step>, m: State)
    requires Run(INIT, steps, s) && s.pc == AtLock
    requires Run(Next(s, SwapStep), appends, m) && forall step :: step in appends ==> step.AppendStep?
    ensures Enabled(m, DrainStep) && Next(m, DrainStep).handed == s.accepted
  {
    InitHolds();
    RunKeepsInv(INIT, steps, s);
    var r := Next(s, SwapStep);
    StepKeepsInv(s, SwapStep);
    assert Flatten<string>([]) == [];
    var none: Lines := [];
    assert none + none == none && InHand(r) + none == InHand(r);
    AppendsKeepHand(r, appends, m);
  }

  lemma {:induction false} AppendsKeepHand(s: State, appends: seq<Step>, m: State)
    requires Inv(s) && Run(s, appends, m) && forall step :: step in appends ==> step.AppendStep?
    ensures m.pc == s.pc && m.toWrite == s.toWrite && m.handed == s.handed
    decreases |appends|
  {
    if appends != [] {
      StepKeepsInv(s, appends[0]);
      AppendsKeepHand(Next(s, appends[0]), appends[1..], m);
    }
  }

  /** The logger's fields, and the thread's locals, changed by each section of code that runs without
      interruption. */
  class AsyncLogging {
    var current: Option<Lines>
    var next: Option<Lines>
    var buffers: seq<Lines>
    var pc: WriterPc
    var buffer1: Option<Lines>
    var buffer2: Option<Lines>
    var toWrite: seq<Lines>
    ghost var handed: Lines
    ghost var accepted: Lines

    ghost function View(): (s: State)
      reads this
    {
      State(current, next, buffers, pc, buffer1, buffer2, toWrite, handed, accepted, false)
    }

    constructor ()
      ensures View() == INIT && Inv(View())
    {
      current, next, buffers := Some([]), Some([]), [];
      pc, buffer1, buffer2, toWrite := AtLock, Some([]), Some([]), [];
      handed, accepted := [], [];
      new;
      assert Flatten<string>([]) == [];
    }

    method Append(line: string)
      requires Inv(View())
      modifies this
      ensures Inv(View()) && View() == AppendLine(old(View()), line)
    {
      AppendKeepsInv(View(), line);
      if LARGE_BUFFER_SIZE - |Flatten(current.value)| > |line| {
        current := Some(current.value + [line]);
      } else {
        buffers := buffers + [current.value];
        if next.Some? {
          current, next := next, None;
        } else {
          current := Some([]);
        }
        if LARGE_BUFFER_SIZE - |Flatten(current.value)| > |line| {
          current := Some(current.value + [line]);
        }
      }
      if |line| < LARGE_BUFFER_SIZE {
        accepted := accepted + [line];
      }
    }

    method SwapBuffers()
      requires Inv(View()) && pc == AtLock
      modifies this
      ensures Inv(View()) && View() == Swap(old(View()))
    {
      WriterKeepsInv(View(), SwapStep);
      buffers := buffers + [current.value];
      current, buffer1 := buffer1, None;
      toWrite, buffers := buffers, toWrite;
      if next.None? {
        next, buffer2 := buffer2, None;
      }
      pc := Draining;
    }

    method WriteOut() returns (lines: Lines)
      requires Inv(View()) && pc == Draining
      modifies this
      ensures Inv(View()) && View() == Drain(old(View()))
      ensures lines == old(InHand(View()))
    {
      WriterKeepsInv(View(), DrainStep);
      lines := [];
      for i := 0 to |toWrite|
        invariant unchanged(this) && lines == Flatten(toWrite[..i])
      {
        assert toWrite[..i + 1] == toWrite[..i] + [toWrite[i]];
        FlattenAppend(toWrite[..i], [toWrite[i]]);
        FlattenOne(toWrite[i]);
        lines := lines + toWrite[i];
      }
      assert toWrite[..|toWrite|] == toWrite;
      handed := handed + lines;
      pc := Refilling;
    }

    /** Both `back()`/`pop_back()` pairs find a buffer. */
    method RefillBuffers()
      requires Inv(View()) && pc == Refilling
      modifies this
      ensures Inv(View()) && View() == Refill(old(View()))
    {
      WriterKeepsInv(View(), RefillStep);
      if |toWrite| > 2 {
        toWrite := toWrite[..2];
      }
      if buffer1.None? {
        assert toWrite != [];
        toWrite, buffer1 := toWrite[..|toWrite| - 1], Some([]);
      }
      if buffer2.None? {
        assert toWrite != [];
        toWrite, buffer2 := toWrite[..|toWrite| - 1], Some([]);
      }
      toWrite := [];
      pc := AtLock;
    }
  }
}
