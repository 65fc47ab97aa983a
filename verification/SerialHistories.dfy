/**
 * Concurrent requests on one upload, guarded by the memory locker. Inside the lock a request
 * takes many steps: it reads the upload, appends the body piece by piece as it arrives, and
 * finishes. Every interleaving gives the answers and the stored bytes of a serial history.
 */
module SerialHistories {
  import opened Streams
  import opened HandlerSpec
  import BodyReader
  import HandlerTheorems
  import Locker = MemoryLocker

  datatype Op = PatchOp(req: Request) | HeadOp | DeleteOp(terminateOk: bool) | GetOp

  datatype Answer = Reply(resp: Response) | Content(data: bytes)

  /** Where a request is inside the lock. */
  datatype Work =
    | Free
    | Patching(req: Request, base: Upload, got: bytes)
    | Deleting
    | Reading(sent: bytes)
    | Answered
  {
    predicate Mid() {
      Patching? || Deleting? || Reading?
    }
  }

  datatype Sys = Sys(locker: Locker.State, server: Server, work: map<Locker.Thread, Work>, history: seq<(Op, Answer)>) {
    function Work(t: Locker.Thread): Work {
      if t in work then work[t] else Free
    }
  }

  // --------------------------------------------------------- one request, serially

  function Serial(cfg: Config, id: Id, s: Server, op: Op): (Server, Answer)
    requires op.PatchOp? ==> op.req.Patch? && op.req.env.written <= |op.req.env.got|
  {
    match op
    case PatchOp(req) => var (s', r) := PatchFile(cfg, s, req); (s', Reply(r))
    case HeadOp => (s, Reply(HeadFile(s, id)))
    case DeleteOp(ok) => var (s', r) := DelFile(cfg, s, id, ok); (s', Reply(r))
    case GetOp => (s, if id in s.uploads then Content(s.uploads[id].content) else Reply(Failed(NotFound)))
  }

  // ------------------------------------------------------- one request, in steps

  /** The part of PATCH before the body is read: the checks and the length declaration. */
  function Admit(cfg: Config, s: Server, req: Request): (Server, Result<Upload, Response>)
    requires req.Patch?
  {
    if !req.contentTypeOk then (s, Err(Failed(InvalidContentType)))
    else if !req.offset.Value? || req.offset.n < 0 then (s, Err(Failed(InvalidOffset)))
    else if req.id !in s.uploads then (s, Err(Failed(NotFound)))
    else
      var u := s.uploads[req.id];
      if u.info.isFinal then (s, Err(Failed(ModifyFinal)))
      else if req.offset.n != |u.content| then (s, Err(Failed(MismatchOffset)))
      else if u.Complete() then (s, Err(NoContent(|u.content|)))
      else
        match DeclareLength(cfg, u, req.length)
        case Err(e) => (s, Err(Failed(e)))
        case Ok(info) =>
          var u1 := u.(info := info);
          var s1 := s.(uploads := s.uploads[req.id := u1]);
          if !info.deferred && |u1.content| + req.env.contentLength > info.size then (s1, Err(Failed(TooMuch)))
          else (s1, Ok(u1))
  }

  /** The part of PATCH after the body: a requested stop, then completion. */
  function Conclude(cfg: Config, s: Server, id: Id, base: Upload, env: Env): (Server, Response)
    requires env.written <= |env.got|
  {
    var content := base.content + env.got[..env.written];
    var s2 := if env.bodyErr == Some(BodyReader.StoppedByServer) && cfg.usesTerminater then Terminate(s, id) else s;
    var (s3, err) := FinishIfComplete(s2, id, base.info, content, env);
    (s3, if env.written < |env.got| then Failed(StoreError)
         else if env.bodyErr.Some? then Failed(BodyError(env.bodyErr.value))
         else if err.Some? then Failed(err.value)
         else NoContent(|base.content| + env.written))
  }

  /** The request as it turned out: the bytes the store wrote and those that arrived but were not
      written, and how the body and finishing went. */
  function AsServed(
    req: Request, got: bytes, lost: bytes, bodyErr: Option<BodyReader.Error>, finishOk: bool, hookOk: bool): (r: Request)
    requires req.Patch?
    ensures r.Patch? && r.env.written == |got| && r.env.got == got + lost && r.env.got[..|got|] == got
    ensures r.env.bodyErr == bodyErr && r.env.finishOk == finishOk && r.env.hookOk == hookOk
    ensures (r.id, r.contentTypeOk, r.offset, r.length) == (req.id, req.contentTypeOk, req.offset, req.length)
    ensures r.env.contentLength == req.env.contentLength && r.env.body == req.env.body
  {
    Patch(req.id, req.contentTypeOk, req.offset, req.length,
          req.env.(got := got + lost, written := |got|, bodyErr := bodyErr, finishOk := finishOk, hookOk := hookOk))
  }

  lemma StepsMakeThePatch(
    cfg: Config, s: Server, req: Request, got: bytes, lost: bytes,
    bodyErr: Option<BodyReader.Error>, finishOk: bool, hookOk: bool)
    requires req.Patch?
    ensures var whole := AsServed(req, got, lost, bodyErr, finishOk, hookOk);
            var (s1, admitted) := Admit(cfg, s, req);
            PatchFile(cfg, s, whole) ==
            match admitted
            case Err(r) => (s1, r)
            case Ok(u) =>
              Conclude(cfg, s1.(uploads := s1.uploads[req.id := u.(content := u.content + got)]), req.id, u, whole.env)
  {
    hide FinishIfComplete;
  }

  // --------------------------------------------------------------------- steps

  datatype Step =
    | Lock(step: Locker.Step)
    | StartPatch(t: Locker.Thread, req: Request)
    | Append(t: Locker.Thread, piece: bytes)
    | EndPatch(t: Locker.Thread, lost: bytes, bodyErr: Option<BodyReader.Error>, finishOk: bool, hookOk: bool)
    | DoHead(t: Locker.Thread)
    | StartDelete(t: Locker.Thread)
    | EndDelete(t: Locker.Thread, terminateOk: bool)
    | StartGet(t: Locker.Thread)
    | Send(t: Locker.Thread, count: nat)
    | EndGet(t: Locker.Thread)

  predicate InLock(s: Sys, id: Id, t: Locker.Thread) {
    s.locker.Pc(t).Holding? && s.locker.Pc(t).id == id
  }

  predicate Enabled(id: Id, s: Sys, step: Step) {
    match step
    case Lock(l) =>
      && Locker.Enabled(s.locker, l)
      && (l.Lookup? ==> l.id == id)
      && (l.Remove? ==> s.Work(l.t).Answered?) && Locker.Proper(s.locker, l)
    case StartPatch(t, req) => InLock(s, id, t) && s.Work(t).Free? && req.Patch? && req.id == id
    case Append(t, _) => s.Work(t).Patching? && id in s.server.uploads
    case EndPatch(t, _, _, _, _) => s.Work(t).Patching? && s.Work(t).req.Patch?
    case DoHead(t) => InLock(s, id, t) && s.Work(t).Free?
    case StartDelete(t) => InLock(s, id, t) && s.Work(t).Free?
    case EndDelete(t, _) => s.Work(t).Deleting?
    case StartGet(t) => InLock(s, id, t) && s.Work(t).Free?
    case Send(t, n) => s.Work(t).Reading? && id in s.server.uploads && |s.Work(t).sent| + n <= |s.server.uploads[id].content|
    case EndGet(t) => s.Work(t).Reading? && id in s.server.uploads && |s.Work(t).sent| == |s.server.uploads[id].content|
  }

  function Goto(s: Sys, t: Locker.Thread, w: Work): Sys {
    s.(work := s.work[t := w])
  }

  function Done(s: Sys, t: Locker.Thread, op: Op, answer: Answer): Sys {
    s.(work := s.work[t := Answered], history := s.history + [(op, answer)])
  }

  function Apply(cfg: Config, id: Id, s: Sys, step: Step): Sys
    requires Enabled(id, s, step)
  {
    match step
    case Lock(l) =>
      var s' := s.(locker := Locker.Apply(s.locker, l));
      if l.Remove? then Goto(s', l.t, Free) else s'
    case StartPatch(t, req) =>
      var (server, admitted) := Admit(cfg, s.server, req);
      (match admitted
       case Err(r) => Done(s.(server := server), t, PatchOp(AsServed(req, [], [], None, true, true)), Reply(r))
       case Ok(u) => Goto(s.(server := server), t, Patching(req, u, [])))
    case Append(t, piece) =>
      var w, u := s.Work(t), s.server.uploads[id];
      Goto(s.(server := s.server.(uploads := s.server.uploads[id := u.(content := u.content + piece)])), t,
           w.(got := w.got + piece))
    case EndPatch(t, lost, bodyErr, finishOk, hookOk) =>
      var w := s.Work(t);
      var whole := AsServed(w.req, w.got, lost, bodyErr, finishOk, hookOk);
      var (server, r) := Conclude(cfg, s.server, id, w.base, whole.env);
      Done(s.(server := server), t, PatchOp(whole), Reply(r))
    case DoHead(t) => Done(s, t, HeadOp, Reply(HeadFile(s.server, id)))
    case StartDelete(t) =>
      if !cfg.usesTerminater || id !in s.server.uploads
      then Done(s, t, DeleteOp(true), Reply(DelFile(cfg, s.server, id, true).1))
      else Goto(s, t, Deleting)
    case EndDelete(t, ok) =>
      if ok then Done(s.(server := Terminate(s.server, id)), t, DeleteOp(true), Reply(Deleted))
      else Done(s, t, DeleteOp(false), Reply(Failed(TerminateError)))
    case StartGet(t) =>
      if id !in s.server.uploads then Done(s, t, GetOp, Reply(Failed(NotFound))) else Goto(s, t, Reading([]))
    case Send(t, n) =>
      var sent := s.Work(t).sent;
      Goto(s, t, Reading(sent + s.server.uploads[id].content[|sent|..|sent| + n]))
    case EndGet(t) => Done(s, t, GetOp, Content(s.Work(t).sent))
  }

  // ----------------------------------------------------------- serial histories

  ghost predicate ValidOp(id: Id, op: Op) {
    op.PatchOp? ==> op.req.Patch? && op.req.id == id && op.req.env.written <= |op.req.env.got|
  }

  ghost predicate ValidHistory(id: Id, h: seq<(Op, Answer)>) {
    forall i :: 0 <= i < |h| ==> ValidOp(id, h[i].0)
  }

  /** The store after the requests of a history, one after the other. */
  function Replay(cfg: Config, id: Id, s0: Server, h: seq<(Op, Answer)>): Server
    requires ValidHistory(id, h)
  {
    if h == [] then s0 else Serial(cfg, id, Replay(cfg, id, s0, h[..|h| - 1]), h[|h| - 1].0).0
  }

  /** Every answer in the history is the one its request gets in the serial run. */
  ghost predicate AnswersAgree(cfg: Config, id: Id, s0: Server, h: seq<(Op, Answer)>)
    requires ValidHistory(id, h)
  {
    forall i :: 0 <= i < |h| ==> h[i].1 == Serial(cfg, id, Replay(cfg, id, s0, h[..i]), h[i].0).1
  }

  lemma ReplaySnoc(cfg: Config, id: Id, s0: Server, h: seq<(Op, Answer)>, op: Op, answer: Answer)
    requires ValidHistory(id, h) && ValidOp(id, op) && AnswersAgree(cfg, id, s0, h)
    requires answer == Serial(cfg, id, Replay(cfg, id, s0, h), op).1
    ensures var h' := h + [(op, answer)];
            && ValidHistory(id, h') && AnswersAgree(cfg, id, s0, h')
            && Replay(cfg, id, s0, h') == Serial(cfg, id, Replay(cfg, id, s0, h), op).0
  {
    hide Serial;
    var h' := h + [(op, answer)];
    assert h'[..|h|] == h;
    forall i | 0 <= i < |h| ensures h'[..i] == h[..i] {
    }
  }

  // --------------------------------------------------------------- the invariant

  /** A request in the middle of its work on a store that was `s` when it got the lock. */
  ghost predicate MidOk(cfg: Config, id: Id, s: Server, now: Server, w: Work) {
    match w
    case Patching(req, base, got) =>
      && req.Patch? && req.id == id
      && Admit(cfg, s, req).1 == Ok(base)
      && var s1 := Admit(cfg, s, req).0;
         id in s1.uploads && now == s1.(uploads := s1.uploads[id := base.(content := base.content + got)])
    case Deleting => now == s && cfg.usesTerminater && id in s.uploads
    case Reading(sent) => now == s && id in s.uploads && sent <= s.uploads[id].content
    case _ => true
  }

  ghost predicate Inv(cfg: Config, id: Id, s0: Server, s: Sys) {
    && Locker.Inv(s.locker)
    && (forall t: Locker.Thread :: !s.Work(t).Free? ==> InLock(s, id, t))
    && ValidHistory(id, s.history) && AnswersAgree(cfg, id, s0, s.history)
    && var before := Replay(cfg, id, s0, s.history);
       && ((forall t: Locker.Thread :: !s.Work(t).Mid()) ==> s.server == before)
       && (forall t: Locker.Thread :: s.Work(t).Mid() ==> MidOk(cfg, id, before, s.server, s.Work(t)))
  }

  /** The locker keeps everybody else out. */
  lemma OneInLock(cfg: Config, id: Id, s0: Server, s: Sys, t: Locker.Thread, u: Locker.Thread)
    requires Inv(cfg, id, s0, s) && InLock(s, id, t) && InLock(s, id, u)
    ensures t == u
  {
    hide Replay, MidOk, AnswersAgree;
  }

  lemma AloneInLock(cfg: Config, id: Id, s0: Server, s: Sys, t: Locker.Thread)
    requires Inv(cfg, id, s0, s) && InLock(s, id, t)
    ensures forall u: Locker.Thread :: u != t ==> s.Work(u).Free?
    ensures !s.Work(t).Mid() ==> s.server == Replay(cfg, id, s0, s.history)
  {
    hide Replay, MidOk, AnswersAgree, Locker.Inv;
    forall u: Locker.Thread | u != t ensures s.Work(u).Free? {
      if InLock(s, id, u) {
        OneInLock(cfg, id, s0, s, t, u);
      }
    }
  }

  lemma DoneKeeps(cfg: Config, id: Id, s0: Server, s: Sys, now: Server, t: Locker.Thread, op: Op, answer: Answer)
    requires Inv(cfg, id, s0, s) && InLock(s, id, t) && ValidOp(id, op)
    requires (now, answer) == Serial(cfg, id, Replay(cfg, id, s0, s.history), op)
    ensures Inv(cfg, id, s0, Done(s.(server := now), t, op, answer))
  {
    hide Replay, MidOk, AnswersAgree, Serial, Locker.Inv, ValidOp;
    AloneInLock(cfg, id, s0, s, t);
    ReplaySnoc(cfg, id, s0, s.history, op, answer);
    var s' := Done(s.(server := now), t, op, answer);
    forall u: Locker.Thread ensures !s'.Work(u).Mid() && (!s'.Work(u).Free? ==> InLock(s', id, u)) {
      assert u != t ==> s'.Work(u) == s.Work(u);
    }
  }

  lemma MidKeeps(cfg: Config, id: Id, s0: Server, s: Sys, now: Server, t: Locker.Thread, w: Work)
    requires Inv(cfg, id, s0, s) && InLock(s, id, t) && w.Mid()
    requires MidOk(cfg, id, Replay(cfg, id, s0, s.history), now, w)
    ensures Inv(cfg, id, s0, Goto(s.(server := now), t, w))
  {
    hide Replay, MidOk, AnswersAgree, Locker.Inv;
    AloneInLock(cfg, id, s0, s, t);
    var s' := Goto(s.(server := now), t, w);
    assert s'.Work(t) == w;
    forall u: Locker.Thread | u != t ensures s'.Work(u) == s.Work(u) {
    }
  }

  lemma LockKeeps(cfg: Config, id: Id, s0: Server, s: Sys, l: Locker.Step)
    requires Inv(cfg, id, s0, s) && Enabled(id, s, Lock(l))
    ensures Inv(cfg, id, s0, Apply(cfg, id, s, Lock(l)))
  {
    hide Replay, MidOk, AnswersAgree, Locker.Inv;
    Locker.StepKeepsInv(s.locker, l);
    Locker.OthersStay(s.locker, l);
    var s' := Apply(cfg, id, s, Lock(l));
    forall u: Locker.Thread
      ensures !s'.Work(u).Free? ==> InLock(s', id, u)
      ensures s'.Work(u).Mid() <==> s.Work(u).Mid()
      ensures s'.Work(u).Mid() ==> s'.Work(u) == s.Work(u)
    {
      assert InLock(s, id, u) || s.Work(u).Free?;
    }
  }

  lemma PatchStepKeeps(cfg: Config, id: Id, s0: Server, s: Sys, step: Step)
    requires Inv(cfg, id, s0, s) && Enabled(id, s, step) && (step.StartPatch? || step.Append? || step.EndPatch?)
    ensures Inv(cfg, id, s0, Apply(cfg, id, s, step))
  {
    hide Replay, AnswersAgree, Locker.Inv, Admit, Conclude, PatchFile;
    var before := Replay(cfg, id, s0, s.history);
    var t := step.t;
    AloneInLock(cfg, id, s0, s, t);
    match step
    case StartPatch(_, req) =>
      StepsMakeThePatch(cfg, before, req, [], [], None, true, true);
      var (now, admitted) := Admit(cfg, before, req);
      if admitted.Err? {
        DoneKeeps(cfg, id, s0, s, now, t, PatchOp(AsServed(req, [], [], None, true, true)), Reply(admitted.error));
      } else {
        AdmittedIsStored(cfg, before, req);
        MidKeeps(cfg, id, s0, s, now, t, Patching(req, admitted.value, []));
      }
    case Append(_, piece) =>
      var w := s.Work(t);
      var now := Apply(cfg, id, s, step).server;
      assert w.base.content + w.got + piece == w.base.content + (w.got + piece);
      var s1 := Admit(cfg, before, w.req).0;
      var u := w.base.(content := w.base.content + w.got);
      assert s1.uploads[id := u][id := u.(content := u.content + piece)] == s1.uploads[id := u.(content := u.content + piece)];
      MidKeeps(cfg, id, s0, s, now, t, w.(got := w.got + piece));
    case EndPatch(_, lost, bodyErr, finishOk, hookOk) =>
      var w := s.Work(t);
      StepsMakeThePatch(cfg, before, w.req, w.got, lost, bodyErr, finishOk, hookOk);
      var whole := AsServed(w.req, w.got, lost, bodyErr, finishOk, hookOk);
      var (now, r) := Conclude(cfg, s.server, id, w.base, whole.env);
      DoneKeeps(cfg, id, s0, s, now, t, PatchOp(whole), Reply(r));
  }

  lemma AdmittedIsStored(cfg: Config, s: Server, req: Request)
    requires req.Patch? && Admit(cfg, s, req).1.Ok?
    ensures var (s1, r) := Admit(cfg, s, req);
            && req.id in s1.uploads
            && s1 == s1.(uploads := s1.uploads[req.id := r.value.(content := r.value.content + [])])
  {
    var (s1, r) := Admit(cfg, s, req);
    assert r.value.content + [] == r.value.content;
    assert s1.uploads[req.id := r.value] == s1.uploads;
  }

  lemma OtherStepKeeps(cfg: Config, id: Id, s0: Server, s: Sys, step: Step)
    requires Inv(cfg, id, s0, s) && Enabled(id, s, step)
    requires step.DoHead? || step.StartDelete? || step.EndDelete? || step.StartGet? || step.Send? || step.EndGet?
    ensures Inv(cfg, id, s0, Apply(cfg, id, s, step))
  {
    hide Replay, AnswersAgree, Locker.Inv, Admit, Terminate, HeadFile;
    var before := Replay(cfg, id, s0, s.history);
    var t := step.t;
    AloneInLock(cfg, id, s0, s, t);
    match step
    case DoHead(_) => DoneKeeps(cfg, id, s0, s, before, t, HeadOp, Reply(HeadFile(before, id)));
    case StartDelete(_) =>
      if !cfg.usesTerminater || id !in before.uploads {
        DoneKeeps(cfg, id, s0, s, before, t, DeleteOp(true), Reply(DelFile(cfg, before, id, true).1));
      } else {
        MidKeeps(cfg, id, s0, s, before, t, Deleting);
      }
    case EndDelete(_, ok) =>
      DoneKeeps(cfg, id, s0, s, if ok then Terminate(before, id) else before, t, DeleteOp(ok),
                Reply(if ok then Deleted else Failed(TerminateError)));
    case StartGet(_) =>
      if id !in before.uploads {
        DoneKeeps(cfg, id, s0, s, before, t, GetOp, Reply(Failed(NotFound)));
      } else {
        MidKeeps(cfg, id, s0, s, before, t, Reading([]));
      }
    case Send(_, n) =>
      var sent, content := s.Work(t).sent, before.uploads[id].content;
      assert sent + content[|sent|..|sent| + n] == content[..|sent| + n];
      MidKeeps(cfg, id, s0, s, before, t, Reading(sent + content[|sent|..|sent| + n]));
    case EndGet(_) =>
      assert s.Work(t).sent == before.uploads[id].content;
      DoneKeeps(cfg, id, s0, s, before, t, GetOp, Content(s.Work(t).sent));
  }

  lemma StepKeepsInv(cfg: Config, id: Id, s0: Server, s: Sys, step: Step)
    requires Inv(cfg, id, s0, s) && Enabled(id, s, step)
    ensures Inv(cfg, id, s0, Apply(cfg, id, s, step))
  {
    hide Inv, Apply, Enabled;
    if step.Lock? {
      LockKeeps(cfg, id, s0, s, step.step);
    } else if step.StartPatch? || step.Append? || step.EndPatch? {
      PatchStepKeeps(cfg, id, s0, s, step);
    } else {
      OtherStepKeeps(cfg, id, s0, s, step);
    }
  }

  // ------------------------------------------------------------------ the theorem

  function Start(server: Server): Sys {
    Sys(Locker.INITIAL, server, map[], [])
  }

  ghost predicate IsRun(cfg: Config, id: Id, s0: Server, states: seq<Sys>, steps: seq<Step>) {
    && |states| == |steps| + 1 && states[0] == Start(s0)
    && (forall i :: 0 <= i < |steps| ==> Enabled(id, states[i], steps[i]) && states[i + 1] == Apply(cfg, id, states[i], steps[i]))
  }

  lemma {:induction false} RunKeepsInv(cfg: Config, id: Id, s0: Server, states: seq<Sys>, steps: seq<Step>, i: nat)
    requires IsRun(cfg, id, s0, states, steps) && i < |states|
    ensures Inv(cfg, id, s0, states[i])
  {
    hide Enabled, Apply, Inv;
    if i > 0 {
      RunKeepsInv(cfg, id, s0, states, steps, i - 1);
      StepKeepsInv(cfg, id, s0, states[i - 1], steps[i - 1]);
    } else {
      StartKeeps(cfg, id, s0);
    }
  }

  lemma StartKeeps(cfg: Config, id: Id, s0: Server)
    ensures Inv(cfg, id, s0, Start(s0))
  {
    hide MidOk, Serial;
  }

  /**
   * Every interleaving is serial: each answered request got exactly the answer it gets when
   * the requests are served one after the other in the order of the history, and whenever no
   * request is in the middle of its work the store is the one that serial run leaves.
   */
  lemma EveryInterleavingIsSerial(cfg: Config, id: Id, s0: Server, states: seq<Sys>, steps: seq<Step>, i: nat)
    requires IsRun(cfg, id, s0, states, steps) && i < |states|
    ensures var s := states[i];
            && ValidHistory(id, s.history) && AnswersAgree(cfg, id, s0, s.history)
            && ((forall t: Locker.Thread :: !s.Work(t).Mid()) ==> s.server == Replay(cfg, id, s0, s.history))
  {
    RunKeepsInv(cfg, id, s0, states, steps, i);
  }

  // --------------------------------------------------- every request can be served

  /** The run so far, one step longer. */
  lemma Extend(cfg: Config, id: Id, s0: Server, states: seq<Sys>, steps: seq<Step>, step: Step)
    returns (states': seq<Sys>, steps': seq<Step>)
    requires IsRun(cfg, id, s0, states, steps) && Enabled(id, states[|steps|], step)
    ensures IsRun(cfg, id, s0, states', steps') && states'[|steps'|] == Apply(cfg, id, states[|steps|], step)
  {
    hide Enabled, Apply;
    states', steps' := states + [Apply(cfg, id, states[|steps|], step)], steps + [step];
  }

  /** The first request takes the lock. */
  lemma TakeLock(cfg: Config, id: Id, s0: Server) returns (states: seq<Sys>, steps: seq<Step>)
    ensures IsRun(cfg, id, s0, states, steps)
    ensures var s := states[|steps|];
            InLock(s, id, 0) && s.Work(0).Free? && s.server == s0 && s.history == [] && Locker.Enabled(s.locker, Locker.Remove(0, id))
  {
    states, steps := [Start(s0)], [];
    states, steps := Extend(cfg, id, s0, states, steps, Lock(Locker.Lookup(0, id)));
    states, steps := Extend(cfg, id, s0, states, steps, Lock(Locker.Create(0)));
  }

  /** An answered request gives the lock back, and the next one can have it. */
  lemma ReleaseLock(cfg: Config, id: Id, s0: Server, states: seq<Sys>, steps: seq<Step>)
    returns (states': seq<Sys>, steps': seq<Step>)
    requires IsRun(cfg, id, s0, states, steps)
    requires InLock(states[|steps|], id, 0) && states[|steps|].Work(0).Answered?
    ensures IsRun(cfg, id, s0, states', steps')
    ensures var (s, s') := (states[|steps|], states'[|steps'|]);
            s'.history == s.history && s'.server == s.server && id !in s'.locker.locks && s'.Work(0).Free? && s'.locker.Pc(0).Idle?
  {
    hide Replay;
    states', steps' := Extend(cfg, id, s0, states, steps, Lock(Locker.Remove(0, id)));
    states', steps' := Extend(cfg, id, s0, states', steps', Lock(Locker.Close(0)));
  }

  lemma HeadCanRun(cfg: Config, id: Id, s0: Server) returns (states: seq<Sys>, steps: seq<Step>)
    ensures IsRun(cfg, id, s0, states, steps)
    ensures states[|steps|].history == [(HeadOp, Reply(HeadFile(s0, id)))] && id !in states[|steps|].locker.locks
  {
    hide Locker.Apply, HeadFile;
    states, steps := TakeLock(cfg, id, s0);
    states, steps := Extend(cfg, id, s0, states, steps, DoHead(0));
    states, steps := ReleaseLock(cfg, id, s0, states, steps);
  }

  lemma GetCanRun(cfg: Config, id: Id, s0: Server) returns (states: seq<Sys>, steps: seq<Step>)
    requires id in s0.uploads
    ensures IsRun(cfg, id, s0, states, steps)
    ensures states[|steps|].history == [(GetOp, Content(s0.uploads[id].content))] && id !in states[|steps|].locker.locks
  {
    hide Locker.Apply;
    var content := s0.uploads[id].content;
    states, steps := TakeLock(cfg, id, s0);
    states, steps := Extend(cfg, id, s0, states, steps, StartGet(0));
    states, steps := Extend(cfg, id, s0, states, steps, Send(0, |content|));
    assert [] + content[0..|content|] == content;
    states, steps := Extend(cfg, id, s0, states, steps, EndGet(0));
    states, steps := ReleaseLock(cfg, id, s0, states, steps);
  }

  lemma DeleteCanRun(cfg: Config, id: Id, s0: Server, ok: bool) returns (states: seq<Sys>, steps: seq<Step>)
    requires cfg.usesTerminater && id in s0.uploads
    ensures IsRun(cfg, id, s0, states, steps)
    ensures states[|steps|].history == [(DeleteOp(ok), Reply(if ok then Deleted else Failed(TerminateError)))]
    ensures (id in states[|steps|].server.uploads <==> !ok) && id !in states[|steps|].locker.locks
  {
    hide Locker.Apply;
    states, steps := TakeLock(cfg, id, s0);
    states, steps := Extend(cfg, id, s0, states, steps, StartDelete(0));
    states, steps := Extend(cfg, id, s0, states, steps, EndDelete(0, ok));
    states, steps := ReleaseLock(cfg, id, s0, states, steps);
  }

  /** A PATCH that is let through can be served whatever arrives and however it ends, in two pieces
      or more, and then has the answer and the effect it has alone. */
  lemma PatchCanRun(cfg: Config, id: Id, s0: Server, req: Request, a: bytes, b: bytes, lost: bytes)
    returns (states: seq<Sys>, steps: seq<Step>)
    requires req.Patch? && req.id == id && Admit(cfg, s0, req).1.Ok?
    ensures var whole := AsServed(req, a + b, lost, req.env.bodyErr, req.env.finishOk, req.env.hookOk);
            && IsRun(cfg, id, s0, states, steps)
            && states[|steps|].history == [(PatchOp(whole), Reply(PatchFile(cfg, s0, whole).1))]
            && states[|steps|].server == PatchFile(cfg, s0, whole).0 && id !in states[|steps|].locker.locks
  {
    hide Locker.Apply, Conclude, PatchFile, Admit;
    states, steps := TakeLock(cfg, id, s0);
    states, steps := Extend(cfg, id, s0, states, steps, StartPatch(0, req));
    AdmittedIsStored(cfg, s0, req);
    states, steps := Extend(cfg, id, s0, states, steps, Append(0, a));
    assert [] + a == a;
    states, steps := Extend(cfg, id, s0, states, steps, Append(0, b));
    states, steps := Extend(cfg, id, s0, states, steps, EndPatch(0, lost, req.env.bodyErr, req.env.finishOk, req.env.hookOk));
    states, steps := ReleaseLock(cfg, id, s0, states, steps);
    EveryInterleavingIsSerial(cfg, id, s0, states, steps, |steps|);
    AloneInHistory(cfg, id, s0, states, steps);
  }

  /** A history of one request: its answer and the store are those of serving it alone. */
  lemma AloneInHistory(cfg: Config, id: Id, s0: Server, states: seq<Sys>, steps: seq<Step>)
    requires IsRun(cfg, id, s0, states, steps) && |states[|steps|].history| == 1
    requires id !in states[|steps|].locker.locks
    ensures var s := states[|steps|];
            ValidOp(id, s.history[0].0) && (s.server, s.history[0].1) == Serial(cfg, id, s0, s.history[0].0)
  {
    hide Enabled, Apply, Serial, MidOk;
    var s := states[|steps|];
    RunKeepsInv(cfg, id, s0, states, steps, |steps|);
    assert s.history[..0] == [];
    forall t: Locker.Thread ensures !s.Work(t).Mid() {
      assert !s.Work(t).Free? ==> InLock(s, id, t);
    }
  }

  // ------------------------------------------ two PATCHes for the same offset

  /** Once an offset has been passed it never comes back: the upload only grows or is gone. */
  lemma {:induction false} NeverBack(cfg: Config, id: Id, s0: Server, h: seq<(Op, Answer)>, i: nat, offset: nat)
    requires ValidHistory(id, h) && i <= |h|
    requires var s := Replay(cfg, id, s0, h[..i]); id in s.uploads ==> |s.uploads[id].content| > offset
    ensures var s := Replay(cfg, id, s0, h); id in s.uploads ==> |s.uploads[id].content| > offset
    decreases |h|
  {
    if i == |h| {
      assert h[..i] == h;
    } else {
      hide PatchFile, Replay;
      var n := |h| - 1;
      assert h[..n][..i] == h[..i];
      NeverBack(cfg, id, s0, h[..n], i, offset);
      ReplayLast(cfg, id, s0, h);
      OpGrows(cfg, id, Replay(cfg, id, s0, h[..n]), h[n].0);
    }
  }

  lemma ReplayLast(cfg: Config, id: Id, s0: Server, h: seq<(Op, Answer)>)
    requires ValidHistory(id, h) && h != []
    ensures Replay(cfg, id, s0, h) == Serial(cfg, id, Replay(cfg, id, s0, h[..|h| - 1]), h[|h| - 1].0).0
  {
  }

  lemma OpGrows(cfg: Config, id: Id, s: Server, op: Op)
    requires ValidOp(id, op)
    ensures var s' := Serial(cfg, id, s, op).0;
            id in s'.uploads ==> id in s.uploads && |s'.uploads[id].content| >= |s.uploads[id].content|
  {
    hide HandlerTheorems.FinishCalls, HandlerTheorems.Emissions, WriteChunk;
    if op.PatchOp? {
      if id in s.uploads {
        if id in PatchFile(cfg, s, op.req).0.uploads {
          HandlerTheorems.PatchGrows(cfg, s, op.req);
        }
      }
    }
  }

  /** The i-th request of a history left the upload longer than it found it. */
  ghost predicate Appends(cfg: Config, id: Id, s0: Server, h: seq<(Op, Answer)>, i: nat)
    requires ValidHistory(id, h) && i < |h|
  {
    var s, s' := Replay(cfg, id, s0, h[..i]), Replay(cfg, id, s0, h[..i + 1]);
    id in s.uploads && id in s'.uploads && |s'.uploads[id].content| > |s.uploads[id].content|
  }

  /** Of two PATCHes that name the same offset at most one appends bytes; the later one fails. */
  lemma OffsetUsedOnce(cfg: Config, id: Id, s0: Server, h: seq<(Op, Answer)>, i: nat, j: nat)
    requires ValidHistory(id, h) && AnswersAgree(cfg, id, s0, h) && i < j < |h|
    requires h[i].0.PatchOp? && h[j].0.PatchOp? && h[i].0.req.offset == h[j].0.req.offset
    requires Appends(cfg, id, s0, h, i)
    ensures !Appends(cfg, id, s0, h, j)
    ensures h[j].1.Reply? && h[j].1.resp.Failed?
  {
    hide WriteChunk, Replay;
    var s := Replay(cfg, id, s0, h[..i]);
    assert h[..i + 1][..i] == h[..i] && h[..j + 1][..j] == h[..j] && h[..j][..i + 1] == h[..i + 1];
    ReplayLast(cfg, id, s0, h[..i + 1]);
    ReplayLast(cfg, id, s0, h[..j + 1]);
    assert h[i].0.req.offset == Value(|s.uploads[id].content|);
    NeverBack(cfg, id, s0, h[..j], i + 1, |s.uploads[id].content|);
  }
}
