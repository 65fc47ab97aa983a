/**
 * uploadParts as it is scheduled: a producer goroutine feeding a bounded channel, the
 * consumer loop taking a semaphore slot before each receive, and one goroutine per chunk
 * that stores it and gives the slot back. Every interleaving ends in the state that the
 * sequential loop of S3Spec computes.
 */
module S3Schedule {
  import opened Streams
  import opened PartSize
  import opened S3Spec
  import opened S3Theorems

  /** What is fixed during one call: the stream, the chunks it will be cut into, and the
      consumer's state before the loop. */
  datatype Call = Call(
    cfg: Config, info: Info, base: int, partSize: nat, stream: bytes, chunks: seq<bytes>, start: Progress,
    backlog: nat, limit: nat)
  {
    ghost predicate Valid() {
      && cfg.Valid() && cfg.minPart <= partSize && limit > 0
      && start.uploaded == 0 && start.tail.None?
      && (forall n :: n in start.table ==> n < start.next)
      && chunks == Cut(stream, partSize)
    }
  }

  datatype Task = PutPart(number: nat, chunk: bytes) | PutTail(chunk: bytes)

  datatype Pc = Acquiring | Receiving | Waiting | Returned

  datatype Sys = Sys(
    rest: bytes, sending: Option<bytes>, closed: bool,
    channel: seq<bytes>,
    pc: Pc, parts: seq<Part>, uploaded: nat, next: nat,
    started: nat, tasks: map<nat, Task>,
    table: map<nat, bytes>, tail: Option<bytes>, incomplete: nat,
    slots: nat, others: nat)

  datatype Step =
    | Read
    | Send
    | Handoff
    | Acquire
    | Receive
    | ReceiveClosed
    | Finish(task: nat)
    | Return
    | OtherAcquire
    | OtherRelease

  function Init(c: Call, others: nat): Sys {
    Sys(c.stream, None, false, [], Acquiring, c.start.parts, 0, c.start.next, 0, map[],
        c.start.table, c.start.tail, c.start.incomplete, others, others)
  }

  /** Releasing a slot takes one out of the semaphore's channel, so it too would block on an empty one. */
  predicate Enabled(c: Call, s: Sys, step: Step) {
    match step
    case Read => s.sending.None? && !s.closed
    case Send => s.sending.Some? && |s.channel| < c.backlog
    case Handoff => s.sending.Some? && s.channel == [] && s.pc.Receiving?
    case Acquire => s.pc.Acquiring? && s.slots < c.limit
    case Receive => s.pc.Receiving? && s.channel != []
    case ReceiveClosed => s.pc.Receiving? && s.channel == [] && s.closed && s.slots > 0
    case Finish(k) => k in s.tasks && s.slots > 0
    case Return => s.pc.Waiting? && s.tasks == map[]
    case OtherAcquire => s.slots < c.limit
    case OtherRelease => s.others > 0 && s.slots > 0
  }

  /** The consumer's turn for a received chunk: number it and start its goroutine. */
  function Dispatch(c: Call, s: Sys, chunk: bytes): Sys {
    var isPart := IsPart(c.cfg, c.info, c.base, s.uploaded, chunk);
    s.(pc := Acquiring,
       parts := if isPart then s.parts + [Part(s.next, |chunk|)] else s.parts,
       tasks := s.tasks[s.started := if isPart then PutPart(s.next, chunk) else PutTail(chunk)],
       started := s.started + 1,
       uploaded := s.uploaded + |chunk|,
       next := s.next + 1)
  }

  function Complete(s: Sys, k: nat): Sys
    requires k in s.tasks && s.slots > 0
  {
    var s' := s.(tasks := s.tasks - {k}, slots := s.slots - 1);
    match s.tasks[k]
    case PutPart(number, chunk) => s'.(table := s.table[number := chunk])
    case PutTail(chunk) => s'.(tail := Some(chunk), incomplete := |chunk|)
  }

  function Apply(c: Call, s: Sys, step: Step): Sys
    requires c.partSize > 0 && Enabled(c, s, step)
  {
    match step
    case Read =>
      if s.rest == [] then s.(closed := true)
      else
        var n := Min(c.partSize, |s.rest|);
        s.(sending := Some(s.rest[..n]), rest := s.rest[n..])
    case Send => s.(channel := s.channel + [s.sending.value], sending := None)
    case Handoff => Dispatch(c, s.(sending := None), s.sending.value)
    case Acquire => s.(pc := Receiving, slots := s.slots + 1)
    case Receive => Dispatch(c, s.(channel := s.channel[1..]), s.channel[0])
    case ReceiveClosed => s.(pc := Waiting, slots := s.slots - 1)
    case Finish(k) => Complete(s, k)
    case Return => s.(pc := Returned)
    case OtherAcquire => s.(slots := s.slots + 1, others := s.others + 1)
    case OtherRelease => s.(slots := s.slots - 1, others := s.others - 1)
  }

  // ---------------------------------------------------------------- invariant

  function Offset(c: Call, i: nat): nat
    requires i <= |c.chunks|
  {
    |Flatten(c.chunks[..i])|
  }

  predicate BecomesPart(c: Call, i: nat)
    requires i < |c.chunks|
  {
    IsPart(c.cfg, c.info, c.base, Offset(c, i), c.chunks[i])
  }

  /** The consumer's variables after `k` chunks, as the sequential loop has them. */
  function After(c: Call, k: nat): Progress
    requires k <= |c.chunks|
  {
    PutAll(c.cfg, c.info, c.base, c.start, c.chunks[..k])
  }

  ghost predicate StreamInv(c: Call, s: Sys)
    requires c.partSize > 0
  {
    && s.started <= |c.chunks|
    && c.chunks[s.started..] ==
       s.channel + (if s.sending.Some? then [s.sending.value] else []) + Cut(s.rest, c.partSize)
    && (s.closed ==> s.rest == [] && s.sending.None?)
    && (s.pc.Waiting? || s.pc.Returned? ==> s.closed && s.channel == [])
    && (s.pc.Returned? ==> s.tasks == map[])
  }

  ghost predicate ConsumerInv(c: Call, s: Sys)
    requires s.started <= |c.chunks|
  {
    && s.uploaded == Offset(c, s.started)
    && s.next == c.start.next + s.started
    && s.parts == After(c, s.started).parts
  }

  /** A chunk has been stored exactly when its goroutine has been started and has ended. */
  ghost predicate RemoteInv(c: Call, s: Sys)
    requires s.started <= |c.chunks|
  {
    && Running(c, s.tasks, s.started)
    && TableAfter(c, s.table, s.started, s.tasks.Keys)
    && s.tail == (if TailStored(c, s) then Some(c.chunks[s.started - 1]) else None)
    && s.incomplete == (if TailStored(c, s) then |c.chunks[s.started - 1]| else c.start.incomplete)
  }

  ghost predicate Running(c: Call, tasks: map<nat, Task>, k: nat)
    requires k <= |c.chunks|
  {
    forall i :: i in tasks ==> i < k && tasks[i] == TaskOf(c, i)
  }

  function TaskOf(c: Call, k: nat): Task
    requires k < |c.chunks|
  {
    if BecomesPart(c, k) then PutPart(c.start.next + k, c.chunks[k]) else PutTail(c.chunks[k])
  }

  ghost predicate TailStored(c: Call, s: Sys)
    requires s.started <= |c.chunks|
  {
    0 < s.started && !BecomesPart(c, s.started - 1) && (s.started - 1) !in s.tasks
  }

  /** The part table once the first `k` chunks except those in `missing` have been stored. */
  ghost predicate TableAfter(c: Call, table: map<nat, bytes>, k: nat, missing: set<nat>)
    requires k <= |c.chunks|
  {
    && (forall n :: n in table <==>
                      || n in c.start.table
                      || (c.start.next <= n < c.start.next + k && (n - c.start.next) !in missing && BecomesPart(c, n - c.start.next)))
    && (forall n :: n in c.start.table ==> table[n] == c.start.table[n])
    && (forall i :: 0 <= i < k && i !in missing && BecomesPart(c, i) ==> table[c.start.next + i] == c.chunks[i])
  }

  ghost predicate SlotInv(c: Call, s: Sys) {
    s.slots == s.others + |s.tasks| + (if s.pc.Receiving? then 1 else 0) <= c.limit
  }

  ghost predicate Inv(c: Call, s: Sys) {
    c.Valid() && StreamInv(c, s) && ConsumerInv(c, s) && RemoteInv(c, s) && SlotInv(c, s)
  }

  // ------------------------------------------------- the sequential loop

  lemma {:induction false} PutAllSnoc(cfg: Config, info: Info, base: int, p: Progress, a: seq<bytes>, chunk: bytes)
    ensures PutAll(cfg, info, base, p, a + [chunk]) == PutChunk(cfg, info, base, PutAll(cfg, info, base, p, a), chunk)
    decreases a
  {
    if a == [] {
      assert [] + [chunk] == [chunk];
    } else {
      PutAllSnoc(cfg, info, base, PutChunk(cfg, info, base, p, a[0]), a[1..], chunk);
      assert (a + [chunk])[1..] == a[1..] + [chunk];
    }
  }

  lemma AfterNext(c: Call, k: nat)
    requires k < |c.chunks|
    ensures After(c, k + 1) == PutChunk(c.cfg, c.info, c.base, After(c, k), c.chunks[k])
    ensures Offset(c, k + 1) == Offset(c, k) + |c.chunks[k]|
  {
    hide Cut, PutAll, PutChunk;
    var chunks := c.chunks;
    assert chunks[..k + 1] == chunks[..k] + [chunks[k]];
    PutAllSnoc(c.cfg, c.info, c.base, c.start, chunks[..k], chunks[k]);
    FlattenSnoc(chunks[..k], chunks[k]);
  }

  /** Only the last chunk can be too small for a part. */
  lemma OnlyLastIsSmall(c: Call, i: nat)
    requires c.Valid() && i < |c.chunks|
    ensures i < |c.chunks| - 1 ==> BecomesPart(c, i)
  {
    CutPieces(c.stream, c.partSize);
  }

  lemma {:induction false} AfterAll(c: Call, k: nat)
    requires c.Valid() && k <= |c.chunks|
    ensures After(c, k).uploaded == Offset(c, k) && After(c, k).next == c.start.next + k
    ensures TableAfter(c, After(c, k).table, k, {})
    ensures var small := k > 0 && !BecomesPart(c, k - 1);
            && After(c, k).tail == (if small then Some(c.chunks[k - 1]) else None)
            && After(c, k).incomplete == (if small then |c.chunks[k - 1]| else c.start.incomplete)
  {
    hide Cut, PutAll, Offset, IsPart, TableAfter;
    if k == 0 {
      PutAllNone(c);
      TableAtStart(c);
      assert Offset(c, 0) == 0 by { OffsetZero(c); }
    } else {
      var i := k - 1;
      AfterAll(c, i);
      AfterNext(c, i);
      TableStart(c, After(c, i).table, i, {});
      assert {} + {i} == {i} && {i} - {i} == {};
      if BecomesPart(c, i) {
        TableStorePart(c, After(c, i).table, k, {i}, i);
      } else {
        TableStoreTail(c, After(c, i).table, k, {i}, i);
      }
      if i > 0 {
        OnlyLastIsSmall(c, i - 1);
      }
    }
  }

  lemma OffsetZero(c: Call)
    ensures Offset(c, 0) == 0
  {
  }

  lemma TableAtStart(c: Call)
    ensures TableAfter(c, c.start.table, 0, {})
  {
  }

  lemma PutAllNone(c: Call)
    ensures After(c, 0) == c.start
  {
    assert c.chunks[..0] == [];
  }

  // ---------------------------------------------------- every step keeps it

  lemma InitInv(c: Call, others: nat)
    requires c.Valid() && others <= c.limit
    ensures Inv(c, Init(c, others))
  {
    hide Cut;
    PutAllNone(c);
    assert c.chunks[0..] == [] + [] + Cut(c.stream, c.partSize);
  }

  lemma TableStart(c: Call, table: map<nat, bytes>, k: nat, missing: set<nat>)
    requires k < |c.chunks| && TableAfter(c, table, k, missing)
    ensures TableAfter(c, table, k + 1, missing + {k})
  {
    hide BecomesPart;
  }

  lemma TableStorePart(c: Call, table: map<nat, bytes>, k: nat, missing: set<nat>, i: nat)
    requires k <= |c.chunks| && i < k && TableAfter(c, table, k, missing) && BecomesPart(c, i)
    requires forall n :: n in c.start.table ==> n < c.start.next
    ensures TableAfter(c, table[c.start.next + i := c.chunks[i]], k, missing - {i})
  {
    hide BecomesPart;
  }

  lemma TableStoreTail(c: Call, table: map<nat, bytes>, k: nat, missing: set<nat>, i: nat)
    requires k <= |c.chunks| && i < k && TableAfter(c, table, k, missing) && !BecomesPart(c, i)
    ensures TableAfter(c, table, k, missing - {i})
  {
    hide BecomesPart;
  }

  lemma DispatchKeepsConsumer(c: Call, s: Sys)
    requires Inv(c, s) && s.started < |c.chunks|
    ensures ConsumerInv(c, Dispatch(c, s, c.chunks[s.started]))
    ensures IsPart(c.cfg, c.info, c.base, s.uploaded, c.chunks[s.started]) == BecomesPart(c, s.started)
    ensures s.next == c.start.next + s.started
  {
    hide Cut, PutAll, Offset, IsPart, RemoteInv, StreamInv;
    AfterAll(c, s.started);
    AfterNext(c, s.started);
  }

  lemma DispatchKeepsRemote(c: Call, s: Sys)
    requires Inv(c, s) && s.started < |c.chunks|
    ensures RemoteInv(c, Dispatch(c, s, c.chunks[s.started]))
  {
    hide Call.Valid, ConsumerInv, BecomesPart, IsPart, TableAfter, SlotInv, Running;
    DispatchKeepsConsumer(c, s);
    var k := s.started;
    if k > 0 {
      OnlyLastIsSmall(c, k - 1);
    }
    TableStart(c, s.table, k, s.tasks.Keys);
    RunningStart(c, s.tasks, k);
    assert Dispatch(c, s, c.chunks[k]).tasks == s.tasks[k := TaskOf(c, k)];
  }

  lemma RunningStart(c: Call, tasks: map<nat, Task>, k: nat)
    requires k < |c.chunks| && Running(c, tasks, k)
    ensures Running(c, tasks[k := TaskOf(c, k)], k + 1)
    ensures tasks[k := TaskOf(c, k)].Keys == tasks.Keys + {k}
    ensures |tasks[k := TaskOf(c, k)]| == |tasks| + 1
  {
    hide TaskOf;
    assert k !in tasks;
    assert tasks[k := TaskOf(c, k)].Keys == tasks.Keys + {k};
  }

  lemma RunningEnd(c: Call, tasks: map<nat, Task>, k: nat, i: nat)
    requires k <= |c.chunks| && Running(c, tasks, k) && i in tasks
    ensures Running(c, tasks - {i}, k)
    ensures (tasks - {i}).Keys == tasks.Keys - {i}
    ensures |tasks - {i}| == |tasks| - 1
  {
    hide TaskOf;
    assert (tasks - {i}).Keys == tasks.Keys - {i};
    assert |(tasks - {i}).Keys| == |tasks.Keys| - 1;
  }

  lemma CompleteKeepsRemote(c: Call, s: Sys, k: nat)
    requires Inv(c, s) && k in s.tasks && s.slots > 0
    ensures var s' := Complete(s, k);
            ConsumerInv(c, s') && RemoteInv(c, s')
  {
    hide Cut, After, Offset, BecomesPart, TableAfter, SlotInv;
    OnlyLastIsSmall(c, k);
    RunningEnd(c, s.tasks, s.started, k);
    if BecomesPart(c, k) {
      TableStorePart(c, s.table, s.started, s.tasks.Keys, k);
    } else {
      TableStoreTail(c, s.table, s.started, s.tasks.Keys, k);
    }
  }

  /** The producer takes the next chunk off the stream, or finds it empty. */
  lemma ReadKeepsStream(c: Call, s: Sys)
    requires Inv(c, s) && Enabled(c, s, Read)
    ensures StreamInv(c, Apply(c, s, Read))
  {
    hide ConsumerInv, RemoteInv, SlotInv;
    if s.rest != [] {
      var n := Min(c.partSize, |s.rest|);
      NextOfCut(s.rest, c.partSize);
      assert s.channel + [] + Cut(s.rest, c.partSize) ==
             s.channel + [s.rest[..n]] + Cut(s.rest[n..], c.partSize);
    }
  }

  lemma NextOfCut(rest: bytes, size: nat)
    requires size > 0 && rest != []
    ensures var n := Min(size, |rest|);
            Cut(rest, size) == [rest[..n]] + Cut(rest[n..], size)
  {
    if |rest| <= size {
      assert rest[..|rest|] == rest && rest[|rest|..] == [];
    }
  }

  lemma DispatchKeepsStream(c: Call, s: Sys, step: Step)
    requires Inv(c, s) && (step == Handoff || step == Receive) && Enabled(c, s, step)
    ensures s.started < |c.chunks|
    ensures StreamInv(c, Apply(c, s, step))
    ensures var chunk := if step == Handoff then s.sending.value else s.channel[0];
            chunk == c.chunks[s.started]
  {
    hide Cut, ConsumerInv, RemoteInv, SlotInv;
    var todo := s.channel + (if s.sending.Some? then [s.sending.value] else []) + Cut(s.rest, c.partSize);
    assert c.chunks[s.started..] == todo && |todo| > 0;
    assert c.chunks[s.started..][0] == c.chunks[s.started];
    assert c.chunks[s.started + 1..] == todo[1..];
    if step == Handoff {
      assert todo[1..] == [] + [] + Cut(s.rest, c.partSize);
    } else {
      assert todo[1..] == s.channel[1..] + (if s.sending.Some? then [s.sending.value] else []) + Cut(s.rest, c.partSize);
    }
  }

  lemma StepKeepsInv(c: Call, s: Sys, step: Step)
    requires Inv(c, s) && Enabled(c, s, step)
    ensures Inv(c, Apply(c, s, step))
  {
    hide Cut, After, Offset, BecomesPart, IsPart, TableAfter, Running;
    match step
    case Read => ReadKeepsStream(c, s);
    case Send =>
      assert s.channel + [s.sending.value] + Cut(s.rest, c.partSize) ==
             s.channel + [s.sending.value] + [] + Cut(s.rest, c.partSize);
    case Handoff => DispatchStep(c, s, step);
    case Receive => DispatchStep(c, s, step);
    case Finish(k) => FinishStep(c, s, k);
    case ReceiveClosed =>
    case Acquire =>
    case Return =>
    case OtherAcquire =>
    case OtherRelease =>
  }

  lemma DispatchStep(c: Call, s: Sys, step: Step)
    requires Inv(c, s) && (step == Handoff || step == Receive) && Enabled(c, s, step)
    ensures Inv(c, Apply(c, s, step))
  {
    hide Cut, RemoteInv, ConsumerInv, IsPart;
    DispatchKeepsStream(c, s, step);
    StartedIsNew(c, s);
    DispatchKeepsConsumer(c, s);
    DispatchKeepsRemote(c, s);
    var s1, chunk := Dispatch(c, s, c.chunks[s.started]), c.chunks[s.started];
    assert chunk == if step == Handoff then s.sending.value else s.channel[0];
    SameRemote(c, s1, Apply(c, s, step));
    TaskAdded(s.tasks, s.started, s1.tasks[s.started]);
  }

  /** The channel and the producer do not matter to the consumer's and the remote part. */
  lemma SameRemote(c: Call, a: Sys, b: Sys)
    requires a.started <= |c.chunks| && ConsumerInv(c, a) && RemoteInv(c, a)
    requires b == a.(rest := b.rest, sending := b.sending, closed := b.closed, channel := b.channel, slots := b.slots, others := b.others)
    ensures ConsumerInv(c, b) && RemoteInv(c, b)
  {
    hide After, Offset, BecomesPart, TableAfter, Running;
  }

  lemma StartedIsNew(c: Call, s: Sys)
    requires Inv(c, s)
    ensures s.started !in s.tasks
  {
  }

  lemma FinishStep(c: Call, s: Sys, k: nat)
    requires Inv(c, s) && Enabled(c, s, Finish(k))
    ensures Inv(c, Apply(c, s, Finish(k)))
  {
    hide Cut, After, Offset, BecomesPart, IsPart, TableAfter, Running;
    CompleteKeepsRemote(c, s, k);
    RunningEnd(c, s.tasks, s.started, k);
  }

  // ----------------------------------------------------------- every schedule

  /** A schedule is any sequence of steps each of which is enabled when it is taken. */
  ghost predicate IsRun(c: Call, states: seq<Sys>, steps: seq<Step>) {
    && |states| == |steps| + 1
    && c.partSize > 0
    && (forall i :: 0 <= i < |steps| ==>
                      && Enabled(c, states[i], steps[i])
                      && states[i + 1] == Apply(c, states[i], steps[i]))
  }

  lemma {:induction false} RunKeepsInv(c: Call, states: seq<Sys>, steps: seq<Step>, i: nat)
    requires IsRun(c, states, steps) && i < |states| && Inv(c, states[0])
    ensures Inv(c, states[i])
  {
    hide Inv, Enabled, Apply;
    if i > 0 {
      RunKeepsInv(c, states, steps, i - 1);
      StepKeepsInv(c, states[i - 1], steps[i - 1]);
    }
  }

  /**
   * For every schedule: the semaphore never holds more than its limit; and when uploadParts
   * returns it holds no slot any more, and the part table, the `.part` object, the part list
   * and the byte count are those of the sequential loop, whatever order the uploads ended in.
   */
  lemma EveryScheduleAgrees(c: Call, others: nat, states: seq<Sys>, steps: seq<Step>)
    requires c.Valid() && others <= c.limit
    requires IsRun(c, states, steps) && states[0] == Init(c, others)
    ensures forall i :: 0 <= i < |states| ==> states[i].slots <= c.limit
    ensures var s := states[|steps|];
            s.pc.Returned? ==>
              && s.slots == s.others
              && PutAll(c.cfg, c.info, c.base, c.start, c.chunks) ==
                 Progress(s.table, s.tail, s.parts, s.incomplete, s.uploaded, s.next)
  {
    hide Apply, Enabled, IsPart, Cut;
    InitInv(c, others);
    forall i | 0 <= i < |states| ensures Inv(c, states[i]) {
      RunKeepsInv(c, states, steps, i);
    }
    if states[|steps|].pc.Returned? {
      ReturnedAgrees(c, states[|steps|]);
    }
  }

  /** The producer is never ahead by more than the channel's backlog and the chunk in its hands. */
  lemma {:induction false} BacklogBound(c: Call, others: nat, states: seq<Sys>, steps: seq<Step>, i: nat)
    requires IsRun(c, states, steps) && states[0] == Init(c, others) && i < |states|
    ensures |states[i].channel| <= c.backlog
  {
    if i > 0 {
      BacklogBound(c, others, states, steps, i - 1);
    }
  }

  /** So whatever the schedule, a call that returns has done what UploadParts says. */
  lemma ScheduledUploadParts(c: Call, h: Handle, r: Remote, others: nat, states: seq<Sys>, steps: seq<Step>)
    requires c.Valid() && others <= c.limit && IsRun(c, states, steps) && states[0] == Init(c, others)
    requires h.info == Some(c.info) && r.table.Some? && c.start == Start(h, r)
    requires CalcOptimalPartSize(c.cfg, c.info.size) == Ok(c.partSize) && states[|steps|].pc.Returned?
    ensures var s := states[|steps|];
            UploadParts(c.cfg, h, r, c.base, c.stream) ==
            Outcome(h.(parts := s.parts, incomplete := s.incomplete), r.(table := Some(s.table), tail := s.tail), Ok(s.uploaded))
  {
    hide Apply, Enabled, IsPart, Cut, PutAll, CalcOptimalPartSize;
    EveryScheduleAgrees(c, others, states, steps);
  }

  lemma ReturnedAgrees(c: Call, s: Sys)
    requires Inv(c, s) && s.pc.Returned?
    ensures s.slots == s.others
    ensures PutAll(c.cfg, c.info, c.base, c.start, c.chunks) ==
            Progress(s.table, s.tail, s.parts, s.incomplete, s.uploaded, s.next)
  {
    hide IsPart, BecomesPart, Offset, PutAll;
    assert c.chunks[s.started..] == [];
    assert c.chunks[..s.started] == c.chunks;
    AfterAll(c, s.started);
    TableUnique(c, s.table, After(c, s.started).table, s.started);
  }

  lemma TableUnique(c: Call, a: map<nat, bytes>, b: map<nat, bytes>, k: nat)
    requires k <= |c.chunks| && TableAfter(c, a, k, {}) && TableAfter(c, b, k, {})
    requires forall n :: n in c.start.table ==> n < c.start.next
    ensures a == b
  {
    hide BecomesPart;
    assert a.Keys == b.Keys;
    forall n | n in a ensures a[n] == b[n] {
      if n !in c.start.table {
        var i := n - c.start.next;
        assert BecomesPart(c, i);
        assert a[c.start.next + i] == c.chunks[i] == b[c.start.next + i];
      }
    }
  }

  // --------------------------------------------------- progress and termination

  predicate Own(step: Step) {
    step != OtherAcquire && step != OtherRelease
  }

  /** A step the call can take on its own in each state. */
  function NextStep(c: Call, s: Sys): Step {
    match s.pc
    case Acquiring => if s.tasks != map[] && s.slots >= c.limit then Finish(AnyTask(s.tasks)) else Acquire
    case Receiving =>
      if s.channel != [] then Receive else if s.closed then ReceiveClosed else if s.sending.Some? then Handoff else Read
    case Waiting => if s.tasks != map[] then Finish(AnyTask(s.tasks)) else Return
    case Returned => Return
  }

  function AnyTask(tasks: map<nat, Task>): (k: nat)
    requires tasks != map[]
    ensures k in tasks
  {
    assert tasks.Keys != {};
    MaxOf(tasks.Keys)
  }

  /** No schedule deadlocks: until it has returned, the call can take a step of its own,
      unless every semaphore slot is in use by other uploads, which can then give one back. */
  lemma NoDeadlock(c: Call, s: Sys)
    requires Inv(c, s) && !s.pc.Returned?
    ensures Own(NextStep(c, s))
    ensures Enabled(c, s, NextStep(c, s)) || (s.pc.Acquiring? && s.others == c.limit && Enabled(c, s, OtherRelease))
  {
    hide Cut, After, Offset, BecomesPart, IsPart, TableAfter;
    if s.tasks != map[] {
      assert AnyTask(s.tasks) in s.tasks.Keys;
    }
  }

  function Weight(pc: Pc): nat {
    match pc
    case Acquiring => 3
    case Receiving => 2
    case Waiting => 1
    case Returned => 0
  }

  /** How many steps of its own the call can still take. */
  function Work(s: Sys): nat {
    6 * |s.rest| + (if s.sending.Some? then 5 else 0) + 4 * |s.channel| + |s.tasks| + Weight(s.pc) + (if s.closed then 0 else 1)
  }

  lemma StepDoesWork(c: Call, s: Sys, step: Step)
    requires c.partSize > 0 && s.started !in s.tasks && Enabled(c, s, step)
    ensures Own(step) ==> Work(Apply(c, s, step)) < Work(s)
    ensures !Own(step) ==> Work(Apply(c, s, step)) == Work(s)
  {
    hide Dispatch, Complete;
    match step
    case Receive => DispatchWork(c, s.(channel := s.channel[1..]), s.channel[0]);
    case Handoff => DispatchWork(c, s.(sending := None), s.sending.value);
    case Finish(k) => CompleteWork(s, k);
    case _ =>
  }

  lemma DispatchWork(c: Call, s: Sys, chunk: bytes)
    requires s.started !in s.tasks && s.pc.Receiving?
    ensures Work(Dispatch(c, s, chunk)) == Work(s) + 2
  {
    hide IsPart;
    TaskAdded(s.tasks, s.started, Dispatch(c, s, chunk).tasks[s.started]);
  }

  lemma CompleteWork(s: Sys, k: nat)
    requires k in s.tasks && s.slots > 0
    ensures Work(Complete(s, k)) == Work(s) - 1
  {
    TaskRemoved(s.tasks, k);
  }

  lemma TaskAdded(tasks: map<nat, Task>, k: nat, task: Task)
    requires k !in tasks
    ensures |tasks[k := task]| == |tasks| + 1
  {
    assert tasks[k := task].Keys == tasks.Keys + {k};
  }

  lemma TaskRemoved(tasks: map<nat, Task>, k: nat)
    requires k in tasks
    ensures |tasks - {k}| == |tasks| - 1
  {
    assert (tasks - {k}).Keys == tasks.Keys - {k};
    assert |(tasks - {k}).Keys| == |tasks.Keys| - 1;
  }

  function OwnSteps(steps: seq<Step>): nat {
    if steps == [] then 0
    else OwnSteps(steps[..|steps| - 1]) + if Own(steps[|steps| - 1]) then 1 else 0
  }

  /** Every schedule ends: the call takes at most six steps per byte of its stream, and four more. */
  lemma {:induction false} ScheduleEnds(c: Call, others: nat, states: seq<Sys>, steps: seq<Step>)
    requires c.Valid() && others <= c.limit
    requires IsRun(c, states, steps) && states[0] == Init(c, others)
    ensures OwnSteps(steps) + Work(states[|steps|]) <= 6 * |c.stream| + 4
  {
    hide Apply, Enabled, IsPart, Cut, Call.Valid, ConsumerInv, TableAfter;
    if steps != [] {
      var n := |steps| - 1;
      assert IsRun(c, states[..n + 1], steps[..n]);
      ScheduleEnds(c, others, states[..n + 1], steps[..n]);
      InitInv(c, others);
      RunKeepsInv(c, states, steps, n);
      StepDoesWork(c, states[n], steps[n]);
    }
  }
}
