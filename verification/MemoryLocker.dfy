/**
 * The in-memory locker as a system of interleaved steps. One step is one critical section
 * of the locker's mutex, one callback invocation, one wake-up, or one channel close. Unlock
 * does not look at its caller: any thread may call it for any id, and only disciplined runs
 * leave it to the holder. (A thread stands for one call at a time, so a goroutine that unlocks
 * something else while it holds a lock counts as another thread.)
 */
module MemoryLocker {
  import opened Streams

  type Id = string

  type Thread = nat

  /** A map entry: the channel closed on release, and whose release callback it carries. */
  datatype Entry = Entry(channel: nat, owner: Thread)

  datatype Pc =
    | Idle
    | Requesting(id: Id, entry: Entry)
    | Waiting(id: Id, entry: Entry)
    | Creating(id: Id)
    | Holding(id: Id, held: nat)
    | Closing(id: Id, toClose: Option<nat>)

  /** `closed` are the closed channels, `next` the next fresh channel, `asked` records which
      entry's release callback each thread has invoked, `panicked` a nil or double close. */
  datatype State = State(
    locks: map<Id, Entry>,
    threads: map<Thread, Pc>,
    closed: set<nat>,
    next: nat,
    asked: set<(Thread, Entry)>,
    panicked: bool)
  {
    function Pc(t: Thread): Pc {
      if t in threads then threads[t] else Idle
    }
  }

  const INITIAL := State(map[], map[], {}, 0, {}, false)

  datatype Step =
    | Lookup(t: Thread, id: Id)
    | Ask(t: Thread)
    | Wake(t: Thread)
    | Timeout(t: Thread)
    | Create(t: Thread)
    | Remove(t: Thread, id: Id)
    | Close(t: Thread)

  predicate Enabled(s: State, step: Step) {
    match step
    case Lookup(t, _) => s.Pc(t).Idle?
    case Ask(t) => s.Pc(t).Requesting?
    case Wake(t) => s.Pc(t).Waiting? && s.Pc(t).entry.channel in s.closed
    case Timeout(t) => s.Pc(t).Waiting?
    case Create(t) => s.Pc(t).Creating?
    case Remove(t, id) => s.Pc(t).Idle? || (s.Pc(t).Holding? && s.Pc(t).id == id)
    case Close(t) => s.Pc(t).Closing?
  }

  function Goto(s: State, t: Thread, pc: Pc): State {
    s.(threads := s.threads[t := pc])
  }

  function Apply(s: State, step: Step): State
    requires Enabled(s, step)
  {
    match step
    case Lookup(t, id) => Goto(s, t, if id in s.locks then Requesting(id, s.locks[id]) else Creating(id))
    case Ask(t) =>
      var pc := s.Pc(t);
      Goto(s, t, Waiting(pc.id, pc.entry)).(asked := s.asked + {(t, pc.entry)})
    case Wake(t) => Goto(s, t, Creating(s.Pc(t).id))
    case Timeout(t) => Goto(s, t, Idle)
    case Create(t) =>
      var id := s.Pc(t).id;
      if id in s.locks then Goto(s, t, Requesting(id, s.locks[id]))
      else Goto(s, t, Holding(id, s.next)).(locks := s.locks[id := Entry(s.next, t)], next := s.next + 1)
    case Remove(t, id) =>
      var channel := if id in s.locks then Some(s.locks[id].channel) else None;
      Goto(s, t, Closing(id, channel)).(locks := s.locks - {id})
    case Close(t) =>
      var channel := s.Pc(t).toClose;
      if channel.None? || channel.value in s.closed then Goto(s, t, Idle).(panicked := true)
      else Goto(s, t, Idle).(closed := s.closed + {channel.value})
  }

  /** The caller's side of the bargain: only the holder of a lock unlocks it. */
  predicate Proper(s: State, step: Step) {
    step.Remove? ==> s.Pc(step.t).Holding?
  }

  // ------------------------------------------------------------ the invariant

  /** Whoever unlocks what: the channels in the map and those about to be closed are open and
      all different. */
  ghost predicate ChannelsInv(s: State) {
    && (forall id :: id in s.locks ==> s.locks[id].channel < s.next && s.locks[id].channel !in s.closed)
    && (forall a, b :: a in s.locks && b in s.locks && s.locks[a].channel == s.locks[b].channel ==> a == b)
    && (forall t: Thread :: s.Pc(t).Closing? && s.Pc(t).toClose.Some? ==>
                      s.Pc(t).toClose.value < s.next && s.Pc(t).toClose.value !in s.closed)
    && (forall t: Thread, id :: s.Pc(t).Closing? && id in s.locks ==> s.Pc(t).toClose != Some(s.locks[id].channel))
    && (forall t: Thread, u: Thread ::
          s.Pc(t).Closing? && s.Pc(u).Closing? && s.Pc(t).toClose.Some? && s.Pc(t).toClose == s.Pc(u).toClose ==> t == u)
    && (forall c :: c in s.closed ==> c < s.next)
  }

  /** The map holds exactly the locks that are held. */
  ghost predicate HoldersInv(s: State) {
    && (forall id :: id in s.locks ==> s.Pc(s.locks[id].owner) == Holding(id, s.locks[id].channel))
    && (forall t: Thread :: s.Pc(t).Holding? ==> s.Pc(t).id in s.locks && s.locks[s.Pc(t).id] == Entry(s.Pc(t).held, t))
  }

  /** Some unlock has panicked, or is about to because it found no channel to close. */
  ghost predicate Doomed(s: State) {
    s.panicked || exists t: Thread :: s.Pc(t).Closing? && s.Pc(t).toClose.None?
  }

  ghost predicate BeingClosed(s: State, channel: nat) {
    exists t: Thread :: s.Pc(t).Closing? && s.Pc(t).toClose == Some(channel)
  }

  /** An entry a thread waits on is still current, or its channel is closed or about to be. */
  ghost predicate Live(s: State, id: Id, e: Entry) {
    e.channel in s.closed || (id in s.locks && s.locks[id] == e) || BeingClosed(s, e.channel)
  }

  ghost predicate WaitersInv(s: State) {
    && (forall t: Thread :: s.Pc(t).Requesting? || s.Pc(t).Waiting? ==> Live(s, s.Pc(t).id, s.Pc(t).entry))
    && (forall t: Thread :: s.Pc(t).Waiting? ==> (t, s.Pc(t).entry) in s.asked)
  }

  ghost predicate Inv(s: State) {
    ChannelsInv(s) && HoldersInv(s) && !Doomed(s) && WaitersInv(s)
  }

  // -------------------------------------------------- every step keeps it

  lemma OthersStay(s: State, step: Step)
    requires Enabled(s, step)
    ensures forall u: Thread :: u != step.t ==> Apply(s, step).Pc(u) == s.Pc(u)
  {
  }

  lemma CreateKeepsChannels(s: State, t: Thread)
    requires ChannelsInv(s) && Enabled(s, Create(t))
    ensures ChannelsInv(Apply(s, Create(t)))
  {
    var id := s.Pc(t).id;
    if id in s.locks {
      QuietKeepsChannels(s, t, Requesting(id, s.locks[id]), s.asked);
    } else {
      OthersStay(s, Create(t));
    }
  }

  lemma RemoveKeepsChannels(s: State, t: Thread, id: Id)
    requires ChannelsInv(s) && Enabled(s, Remove(t, id))
    ensures ChannelsInv(Apply(s, Remove(t, id)))
  {
    OthersStay(s, Remove(t, id));
  }

  lemma CloseKeepsChannels(s: State, t: Thread)
    requires ChannelsInv(s) && Enabled(s, Close(t))
    ensures ChannelsInv(Apply(s, Close(t)))
  {
    OthersStay(s, Close(t));
  }

  /** A step that leaves the map and the channels alone and neither starts nor ends a close. */
  lemma QuietKeepsChannels(s: State, t: Thread, pc: Pc, asked: set<(Thread, Entry)>)
    requires ChannelsInv(s) && !s.Pc(t).Closing? && !pc.Closing?
    ensures ChannelsInv(Goto(s, t, pc).(asked := asked))
  {
    var s' := Goto(s, t, pc).(asked := asked);
    assert forall u: Thread :: s'.Pc(u).Closing? ==> s'.Pc(u) == s.Pc(u);
  }

  lemma StepKeepsChannels(s: State, step: Step)
    requires ChannelsInv(s) && Enabled(s, step)
    ensures ChannelsInv(Apply(s, step))
  {
    hide ChannelsInv;
    match step
    case Create(t) => CreateKeepsChannels(s, t);
    case Remove(t, id) => RemoveKeepsChannels(s, t, id);
    case Close(t) => CloseKeepsChannels(s, t);
    case _ => QuietKeepsChannels(s, step.t, Apply(s, step).Pc(step.t), Apply(s, step).asked);
  }

  lemma CreateKeepsHolders(s: State, t: Thread)
    requires HoldersInv(s) && Enabled(s, Create(t))
    ensures HoldersInv(Apply(s, Create(t)))
  {
    OthersStay(s, Create(t));
  }

  lemma RemoveKeepsHolders(s: State, t: Thread, id: Id)
    requires HoldersInv(s) && Enabled(s, Remove(t, id)) && Proper(s, Remove(t, id))
    ensures HoldersInv(Apply(s, Remove(t, id)))
  {
    OthersStay(s, Remove(t, id));
  }

  lemma StepKeepsHolders(s: State, step: Step)
    requires HoldersInv(s) && Enabled(s, step) && Proper(s, step)
    ensures HoldersInv(Apply(s, step))
  {
    match step
    case Create(t) => CreateKeepsHolders(s, t);
    case Remove(t, id) => RemoveKeepsHolders(s, t, id);
    case _ => OthersStay(s, step);
  }

  predicate FindsNothing(s: State, step: Step) {
    step.Remove? && step.id !in s.locks
  }

  /** A step dooms the run exactly when it is an unlock without an entry: no channel is ever
      closed twice, whoever unlocks what. */
  lemma StepDooms(s: State, step: Step)
    requires ChannelsInv(s) && Enabled(s, step)
    ensures Doomed(Apply(s, step)) <==> Doomed(s) || FindsNothing(s, step)
  {
    OthersStay(s, step);
    var s', t := Apply(s, step), step.t;
    if u: Thread :| s.Pc(u).Closing? && s.Pc(u).toClose.None? && u != t {
      assert s'.Pc(u) == s.Pc(u);
    }
    assert s'.Pc(t).Closing? && s'.Pc(t).toClose.None? <==> FindsNothing(s, step);
    if v: Thread :| s'.Pc(v).Closing? && s'.Pc(v).toClose.None? && v != t {
      assert s'.Pc(v) == s.Pc(v);
    }
  }

  /** A live entry stays live: when its lock is removed, the remover is about to close its
      channel, and when that thread stops closing, the channel is closed. */
  lemma StepKeepsLive(s: State, step: Step, id: Id, e: Entry)
    requires ChannelsInv(s) && Enabled(s, step) && Live(s, id, e)
    ensures Live(Apply(s, step), id, e)
  {
    var s' := Apply(s, step);
    if e.channel in s.closed {
    } else if id in s.locks && s.locks[id] == e {
      if step.Remove? && step.id == id {
        assert s'.Pc(step.t).toClose == Some(e.channel);
      }
    } else {
      var t: Thread :| s.Pc(t).Closing? && s.Pc(t).toClose == Some(e.channel);
      if step != Close(t) {
        assert s'.Pc(t) == s.Pc(t);
      }
    }
  }

  lemma StepKeepsInv(s: State, step: Step)
    requires Inv(s) && Enabled(s, step) && Proper(s, step)
    ensures Inv(Apply(s, step))
  {
    hide ChannelsInv, Live, Doomed;
    StepKeepsChannels(s, step);
    StepKeepsHolders(s, step);
    StepDooms(s, step);
    OthersStay(s, step);
    var s' := Apply(s, step);
    forall t: Thread | s'.Pc(t).Requesting? || s'.Pc(t).Waiting?
      ensures Live(s', s'.Pc(t).id, s'.Pc(t).entry)
      ensures s'.Pc(t).Waiting? ==> (t, s'.Pc(t).entry) in s'.asked
    {
      if t == step.t && (step.Lookup? || step.Create?) {
        CurrentIsLive(s', s'.Pc(t).id);
      } else {
        StepKeepsLive(s, step, s'.Pc(t).id, s'.Pc(t).entry);
      }
    }
  }

  lemma CurrentIsLive(s: State, id: Id)
    requires id in s.locks
    ensures Live(s, id, s.locks[id])
  {
  }

  // ------------------------------------------------------------- whole runs

  ghost predicate IsRun(states: seq<State>, steps: seq<Step>) {
    && |states| == |steps| + 1 && states[0] == INITIAL
    && (forall i :: 0 <= i < |steps| ==> Enabled(states[i], steps[i]) && states[i + 1] == Apply(states[i], steps[i]))
  }

  ghost predicate Disciplined(states: seq<State>, steps: seq<Step>) {
    |states| > |steps| && forall i :: 0 <= i < |steps| ==> Proper(states[i], steps[i])
  }

  lemma {:induction false} RunKeepsInv(states: seq<State>, steps: seq<Step>, i: nat)
    requires IsRun(states, steps) && Disciplined(states, steps) && i < |states|
    ensures Inv(states[i])
  {
    hide Enabled, Apply, Proper;
    if i > 0 {
      RunKeepsInv(states, steps, i - 1);
      StepKeepsInv(states[i - 1], steps[i - 1]);
    }
  }

  /**
   * In every state of every disciplined run: at most one thread holds an id; no channel is
   * ever closed twice and no nil channel is closed; and whoever waits has invoked the release
   * callback of the very entry it waits on, and will be woken: that entry is the current one
   * and its owner holds the lock, or its channel is closed or has a thread about to close it.
   */
  lemma LockerSafe(states: seq<State>, steps: seq<Step>, i: nat)
    requires IsRun(states, steps) && Disciplined(states, steps) && i < |states|
    ensures var s := states[i];
            && !s.panicked
            && (forall t: Thread, u: Thread :: s.Pc(t).Holding? && s.Pc(u).Holding? && s.Pc(t).id == s.Pc(u).id ==> t == u)
            && (forall t: Thread :: s.Pc(t).Waiting? ==>
                                      var (id, e) := (s.Pc(t).id, s.Pc(t).entry);
                                      && (t, e) in s.asked
                                      && (|| e.channel in s.closed
                                          || s.Pc(e.owner) == Holding(id, e.channel)
                                          || BeingClosed(s, e.channel)))
  {
    hide Apply, Enabled, Proper;
    RunKeepsInv(states, steps, i);
  }

  /** Once nobody holds the lock a thread waits for or is closing its channel, the thread can go on. */
  lemma NoLostWakeUp(s: State, t: Thread)
    requires Inv(s) && s.Pc(t).Waiting?
    requires forall u: Thread :: !(s.Pc(u).Closing? && s.Pc(u).toClose == Some(s.Pc(t).entry.channel))
    requires forall u: Thread :: !(s.Pc(u).Holding? && s.Pc(u).id == s.Pc(t).id)
    ensures Enabled(s, Wake(t))
  {
    hide Doomed;
    var id, e := s.Pc(t).id, s.Pc(t).entry;
    assert Live(s, id, e);
    assert id in s.locks ==> s.Pc(s.locks[id].owner).Holding?;
  }

  /** The thread is inside a Lock call for this id. */
  predicate Locking(s: State, t: Thread, id: Id) {
    (s.Pc(t).Requesting? || s.Pc(t).Waiting? || s.Pc(t).Creating?) && s.Pc(t).id == id
  }

  predicate Holds(s: State, t: Thread, id: Id) {
    s.Pc(t).Holding? && s.Pc(t).id == id
  }

  /** A Lock call is entered by its lookup, is left with the lock or by a timeout, and in no other
      way; and a held lock stays held until its own unlock. */
  lemma LockCallGoesOn(s: State, step: Step, t: Thread, id: Id)
    requires Enabled(s, step)
    ensures Locking(s, t, id) ==>
              || Locking(Apply(s, step), t, id) || Holds(Apply(s, step), t, id)
              || (step == Timeout(t) && s.Pc(t).Waiting? && Apply(s, step).Pc(t).Idle?)
    ensures Holds(s, t, id) ==> Apply(s, step).Pc(t) == s.Pc(t) || step == Remove(t, id)
    ensures !Locking(s, t, id) && Locking(Apply(s, step), t, id) ==> step == Lookup(t, id)
    ensures step == Lookup(t, id) ==> Locking(Apply(s, step), t, id)
    ensures !Holds(s, t, id) && Holds(Apply(s, step), t, id) ==> step == Create(t) && Locking(s, t, id) && id !in s.locks
  {
    OthersStay(s, step);
  }

  /** In every run a Lock call that has not timed out is still going on or has got the lock. */
  lemma {:induction false} RunGetsLock(states: seq<State>, steps: seq<Step>, i: nat, j: nat, t: Thread, id: Id)
    requires IsRun(states, steps) && i <= j < |states| && Locking(states[i], t, id)
    requires forall k :: i <= k < j ==> steps[k] != Timeout(t)
    ensures Locking(states[j], t, id) || exists k :: i < k <= j && Holds(states[k], t, id)
  {
    hide Enabled, Apply, Locking, Holds;
    if i < j {
      RunGetsLock(states, steps, i, j - 1, t, id);
      if Locking(states[j - 1], t, id) {
        LockCallGoesOn(states[j - 1], steps[j - 1], t, id);
      }
    }
  }

  /** A waiter whose entry was released and whose id nobody has taken since gets the lock by its
      own next two steps; whatever else it finds, it asks the new owner and waits again. */
  lemma WokenTakesLock(s: State, t: Thread)
    requires s.Pc(t).Waiting? && s.Pc(t).entry.channel in s.closed
    ensures Enabled(s, Wake(t)) && Enabled(Apply(s, Wake(t)), Create(t))
    ensures var id := s.Pc(t).id;
            var s2 := Apply(Apply(s, Wake(t)), Create(t));
            && (id !in s.locks ==> s2.Pc(t) == Holding(id, s.next) && id in s2.locks && s2.locks[id] == Entry(s.next, t))
            && (id in s.locks ==>
                  && Enabled(s2, Ask(t))
                  && Apply(s2, Ask(t)).Pc(t) == Waiting(id, s.locks[id])
                  && (t, s.locks[id]) in Apply(s2, Ask(t)).asked)
  {
  }

  // --------------------------------------------------- unlocking without a lock

  lemma {:induction false} RunKeepsChannels(states: seq<State>, steps: seq<Step>, i: nat)
    requires IsRun(states, steps) && i < |states|
    ensures ChannelsInv(states[i])
  {
    hide Enabled, Apply;
    if i > 0 {
      RunKeepsChannels(states, steps, i - 1);
      StepKeepsChannels(states[i - 1], steps[i - 1]);
    }
  }

  ghost predicate FoundNothing(states: seq<State>, steps: seq<Step>, n: nat)
    requires n <= |steps| < |states|
  {
    exists i :: 0 <= i < n && FindsNothing(states[i], steps[i])
  }

  /**
   * For every run, whoever unlocks what and when: it panics if and only if some unlock finds
   * no entry for its id. The panic comes when that unlock closes the channel it did not find,
   * so a run in which no unlock is half done has panicked exactly then.
   */
  lemma {:induction false} UnlockPanicsIff(states: seq<State>, steps: seq<Step>, n: nat)
    requires IsRun(states, steps) && n <= |steps|
    ensures Doomed(states[n]) <==> FoundNothing(states, steps, n)
    ensures (forall t: Thread :: !states[n].Pc(t).Closing?) ==> (states[n].panicked <==> FoundNothing(states, steps, n))
    decreases n
  {
    hide Enabled, Apply, FindsNothing;
    if n > 0 {
      UnlockPanicsIff(states, steps, n - 1);
      RunKeepsChannels(states, steps, n - 1);
      StepDooms(states[n - 1], steps[n - 1]);
      assert FoundNothing(states, steps, n) <==> FoundNothing(states, steps, n - 1) || FindsNothing(states[n - 1], steps[n - 1]);
    }
  }

  /** The shortest such run: unlocking an id that nobody ever locked. */
  lemma UnlockWithoutLock()
    ensures var s1 := Apply(INITIAL, Remove(0, "a"));
            Enabled(s1, Close(0)) && Apply(s1, Close(0)).panicked
  {
  }

  /** Why discipline matters: a stranger unlocks a held lock, and two threads hold it. */
  lemma StrayUnlockExample() returns (states: seq<State>, steps: seq<Step>)
    ensures IsRun(states, steps)
    ensures states[|steps|].Pc(0) == Holding("a", 0) && states[|steps|].Pc(2) == Holding("a", 1)
  {
    steps := [Lookup(0, "a"), Create(0), Remove(1, "a"), Close(1), Lookup(2, "a"), Create(2)];
    var s1 := Apply(INITIAL, steps[0]);
    var s2 := Apply(s1, steps[1]);
    var s3 := Apply(s2, steps[2]);
    var s4 := Apply(s3, steps[3]);
    var s5 := Apply(s4, steps[4]);
    states := [INITIAL, s1, s2, s3, s4, s5, Apply(s5, steps[5])];
  }
}
