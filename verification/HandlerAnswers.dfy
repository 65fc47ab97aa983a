/** What the handler's answers tell a client, and exactly when it gets which. */
module HandlerAnswers {
  import opened Streams
  import BodyReader
  import opened HandlerSpec
  import opened HandlerTheorems

  // -------------------------------------------------------------- chunk writes

  /** The upload with what arrived behind it. */
  function Appended(u: Upload, env: Env): Upload {
    u.(content := u.content + env.got)
  }

  /** The chunk is let through, arrives and is stored completely, and a completed upload is finished. */
  predicate ChunkSucceeds(u: Upload, env: Env) {
    && (u.info.deferred || |u.content| + env.contentLength <= u.info.size)
    && env.written == |env.got| && env.bodyErr.None?
    && (Appended(u, env).Complete() ==> env.finishOk && env.hookOk)
  }

  /** Why a chunk write fails; no two reasons hold together. */
  predicate ChunkReason(u: Upload, env: Env, e: HandlerError) {
    match e
    case TooMuch => !u.info.deferred && env.contentLength > u.info.size - |u.content|
    case StoreError => env.written < |env.got|
    case BodyError(cause) => env.written == |env.got| && env.bodyErr == Some(cause)
    case FinishError => env.written == |env.got| && env.bodyErr.None? && Appended(u, env).Complete() && !env.finishOk
    case HookError => env.written == |env.got| && env.bodyErr.None? && Appended(u, env).Complete() && env.finishOk && !env.hookOk
    case _ => false
  }

  /** A chunk write succeeds exactly if nothing went wrong, and then everything that arrived is
      stored; if it fails, the error names what went wrong. */
  lemma ChunkAnswer(cfg: Config, s: Server, id: Id, env: Env)
    requires id in s.uploads && env.written <= |env.got|
    ensures var (s', err) := WriteChunk(cfg, s, id, env);
            && (err.None? <==> ChunkSucceeds(s.uploads[id], env))
            && (err.None? ==> env.written == |env.got| && s'.uploads == s.uploads[id := Appended(s.uploads[id], env)] && s'.created == s.created)
            && (err.Some? ==> ChunkReason(s.uploads[id], env, err.value))
            && (err == Some(TooMuch) ==> s' == s)
  {
    hide FinishCalls, Emissions, Extends;
    assert env.written == |env.got| ==> env.got[..env.written] == env.got;
  }

  // ---------------------------------------------------------------------- PATCH

  /** The length declaration of a PATCH is acceptable, given what HEAD reports. */
  predicate MayDeclare(cfg: Config, u: Upload, length: Header) {
    length.Absent? ||
    (cfg.usesDeferrer && u.info.deferred && length.Value? && length.n >= |u.content| && (cfg.maxSize == 0 || length.n <= cfg.maxSize))
  }

  function Declared(u: Upload, length: Header): Upload {
    if length.Value? && length.n >= 0 then u.(info := u.info.(size := length.n, deferred := false)) else u
  }

  /** Why a PATCH fails, in terms of the request and of what HEAD reports. */
  predicate PatchReason(cfg: Config, s: Server, req: Request, e: HandlerError)
    requires req.Patch?
  {
    var head := HeadFile(s, req.id);
    match e
    case InvalidContentType => !req.contentTypeOk
    case InvalidOffset => !(req.offset.Value? && req.offset.n >= 0)
    case NotFound => head == Failed(NotFound)
    case ModifyFinal => head.Head? && head.concat.FinalUpload?
    case MismatchOffset => head.Head? && req.offset.Value? && req.offset.n != head.offset
    case NotImplemented => !req.length.Absent? && !cfg.usesDeferrer
    case InvalidUploadLength =>
      head.Head? && !req.length.Absent? &&
      (head.length.Some? || !req.length.Value? || req.length.n < head.offset || (cfg.maxSize > 0 && req.length.n > cfg.maxSize))
    case _ => req.id in s.uploads && ChunkReason(Declared(s.uploads[req.id], req.length), req.env, e)
  }

  predicate BeforeTheChunk(e: HandlerError) {
    e.InvalidContentType? || e.InvalidOffset? || e.NotFound? || e.ModifyFinal? || e.MismatchOffset?
    || e.NotImplemented? || e.InvalidUploadLength?
  }

  /**
   * A PATCH succeeds exactly if it names the offset HEAD reports for an upload that is not
   * final, and that upload is already complete or an acceptable length and the whole chunk go
   * through. It then answers the offset HEAD reports from now on. If it fails, the error names
   * the reason, and errors found before the chunk change nothing.
   */
  lemma PatchAnswer(cfg: Config, s: Server, req: Request)
    requires req.Patch? && req.env.written <= |req.env.got|
    ensures var (s', resp) := PatchFile(cfg, s, req);
            && (resp.NoContent? || resp.Failed?)
            && (resp.NoContent? <==>
                && req.contentTypeOk && req.id in s.uploads && !s.uploads[req.id].info.isFinal
                && req.offset == Value(|s.uploads[req.id].content|)
                && var u := s.uploads[req.id];
                   u.Complete() || (MayDeclare(cfg, u, req.length) && ChunkSucceeds(Declared(u, req.length), req.env)))
            && (resp.NoContent? ==>
                  var u := s.uploads[req.id];
                  && HeadFile(s', req.id).Head? && resp.offset == HeadFile(s', req.id).offset
                  && s'.uploads == s.uploads[req.id := if u.Complete() then u else Appended(Declared(u, req.length), req.env)])
            && (resp.Failed? ==> PatchReason(cfg, s, req, resp.error))
            && (resp.Failed? && BeforeTheChunk(resp.error) ==> s' == s)
  {
    hide WriteChunk, ChunkReason, ChunkSucceeds;
    if req.id in s.uploads {
      var u := s.uploads[req.id];
      assert s.uploads[req.id := u] == s.uploads;
      var d := DeclareLength(cfg, u, req.length);
      if d.Ok? {
        assert u.(info := d.value) == Declared(u, req.length);
        var s1 := s.(uploads := s.uploads[req.id := Declared(u, req.length)]);
        ChunkAnswer(cfg, s1, req.id, req.env);
        ReasonIsLate(Declared(u, req.length), req.env);
      }
    }
  }

  lemma ReasonIsLate(u: Upload, env: Env)
    ensures forall e :: ChunkReason(u, env, e) ==> Late(e)
  {
  }

  // ----------------------------------------------------------------------- POST

  function Kind(cfg: Config, req: Request): Concat
    requires req.Post?
  {
    if cfg.usesConcater then req.concat else NoConcat
  }

  predicate Within(cfg: Config, size: nat) {
    cfg.maxSize == 0 || size <= cfg.maxSize
  }

  /** The upload an accepted POST leaves behind. */
  function Posted(cfg: Config, s: Server, req: Request): Option<Upload>
    requires req.Post?
  {
    match Kind(cfg, req)
    case BadConcat => None
    case FinalUpload(ids) =>
      var content := Concatenate(s, ids);
      if content.Err? then None
      else Some(Upload(Info(|content.value|, false, false, true, ids), content.value))
    case _ =>
      var v := ValidateLength(cfg, req.length, req.defer);
      if v.Err? then None
      else Some(Upload(Info(v.value.0, v.value.1, Kind(cfg, req).PartialUpload?, false, []),
                       if req.containsChunk then req.env.got else []))
  }

  /** What must go right after the upload of a POST has been created. */
  predicate Completes(u: Upload, req: Request)
    requires req.Post?
  {
    if u.info.isFinal then req.env.concatOk && req.env.hookOk && (u.content == [] ==> req.env.finishOk)
    else if req.containsChunk then ChunkSucceeds(u.(content := []), req.env)
    else u.Complete() ==> req.env.finishOk && req.env.hookOk
  }

  /** The request is well formed: concatenation is allowed, and a final upload has parts and no chunk. */
  predicate WellFormed(cfg: Config, req: Request)
    requires req.Post?
  {
    var kind := Kind(cfg, req);
    (kind.NoConcat? || !cfg.disableConcat) && (kind.FinalUpload? ==> kind.ids != [] && !req.containsChunk)
  }

  /**
   * A POST succeeds exactly if it is well formed, its length is valid or its partial uploads are
   * complete, the size is within the limit, the hook and the store let it be created, and
   * everything after that goes right. It then names an id that was never used, and the upload of
   * that id is the only change: HEAD on it reports the bytes sent or concatenated, the length
   * that was asked for, and the kind of upload.
   */
  lemma PostAnswer(cfg: Config, s: Server, req: Request)
    requires req.Post? && req.env.written <= |req.env.got| && req.id !in s.created
    ensures var (s', resp) := PostFile(cfg, s, req);
            var posted := Posted(cfg, s, req);
            && (resp.CreatedAt? || resp.Failed?)
            && (resp.CreatedAt? <==>
                && WellFormed(cfg, req) && posted.Some? && Within(cfg, posted.value.info.size) && req.env.createOk
                && Completes(posted.value, req))
            && (resp.CreatedAt? ==>
                  && resp.id !in s.created && s'.created.Keys == s.created.Keys + {resp.id}
                  && s'.uploads == s.uploads[resp.id := posted.value]
                  && HeadFile(s', resp.id) == Head(|posted.value.content|,
                                                   if posted.value.info.deferred then None else Some(posted.value.info.size),
                                                   Kind(cfg, req))
                  && resp.sent == if req.containsChunk then Some(|req.env.got|) else None)
  {
    hide WriteChunk, ChunkSucceeds, ChunkReason, Concatenate;
    match Kind(cfg, req)
    case BadConcat =>
    case FinalUpload(ids) =>
      if Concatenate(s, ids).Ok? {
        PostFinalAnswer(cfg, s, req, ids, Concatenate(s, ids).value);
      }
    case _ =>
      var v := ValidateLength(cfg, req.length, req.defer);
      if v.Ok? {
        PostPlainAnswer(cfg, s, req, Info(v.value.0, v.value.1, Kind(cfg, req).PartialUpload?, false, []));
      }
  }

  lemma PostPlainAnswer(cfg: Config, s: Server, req: Request, info: Info)
    requires req.Post? && req.env.written <= |req.env.got| && !info.isFinal && req.id !in s.created
    ensures var (s', resp) := PostPlain(cfg, s, req, info);
            var u := Upload(info, if req.containsChunk then req.env.got else []);
            && (resp.CreatedAt? || resp.Failed?)
            && (resp.CreatedAt? <==> Completes(u, req))
            && (resp.CreatedAt? ==>
                  && s'.uploads == s.uploads[req.id := u] && s'.created.Keys == s.created.Keys + {req.id}
                  && resp == CreatedAt(req.id, if req.containsChunk then Some(|req.env.got|) else None))
  {
    hide WriteChunk;
    var s1 := NewUpload(s, req.id, info);
    if req.containsChunk {
      ChunkAnswer(cfg, s1, req.id, req.env);
      assert [] + req.env.got == req.env.got;
    }
  }

  lemma PostFinalAnswer(cfg: Config, s: Server, req: Request, ids: seq<Id>, content: bytes)
    requires req.Post? && req.id !in s.created
    ensures var (s', resp) := PostFinal(cfg, s, req, ids, content);
            var u := Upload(Info(|content|, false, false, true, ids), content);
            && (resp.CreatedAt? || resp.Failed?)
            && (resp.CreatedAt? <==> Within(cfg, |content|) && req.env.createOk && Completes(u, req))
            && (resp.CreatedAt? ==>
                  && s'.uploads == s.uploads[req.id := u] && s'.created.Keys == s.created.Keys + {req.id}
                  && resp == CreatedAt(req.id, None))
  {
  }

  /** Why a POST fails. */
  predicate PostReason(cfg: Config, s: Server, req: Request, e: HandlerError)
    requires req.Post?
  {
    var kind, posted := Kind(cfg, req), Posted(cfg, s, req);
    match e
    case ConcatUnsupported => !kind.NoConcat? && cfg.disableConcat
    case InvalidConcat => kind.BadConcat? || (kind.FinalUpload? && kind.ids == [])
    case ModifyFinal => kind.FinalUpload? && req.containsChunk
    case NotFound => kind.FinalUpload? && exists i :: 0 <= i < |kind.ids| && kind.ids[i] !in s.uploads
    case NotFinished =>
      kind.FinalUpload? && exists i :: 0 <= i < |kind.ids| && kind.ids[i] in s.uploads && !s.uploads[kind.ids[i]].Complete()
    case NotImplemented => req.defer.DeferOne? && !cfg.usesDeferrer
    case BothLengths => !req.length.Absent? && !req.defer.DeferAbsent?
    case InvalidDeferLength => req.defer.DeferOther?
    case InvalidUploadLength => req.defer.DeferAbsent? && !(req.length.Value? && req.length.n >= 0)
    case MaxSizeExceeded => posted.Some? && !Within(cfg, posted.value.info.size)
    case CreateError => !req.env.createOk
    case _ => posted.Some? && LateReason(posted.value, req, e)
  }

  /** Why a POST fails once its upload has been created. */
  predicate LateReason(u: Upload, req: Request, e: HandlerError)
    requires req.Post?
  {
    if u.info.isFinal then
      || (e == StoreError && !req.env.concatOk)
      || (e == HookError && req.env.concatOk && !req.env.hookOk)
      || (e == FinishError && req.env.concatOk && req.env.hookOk && u.content == [] && !req.env.finishOk)
    else if req.containsChunk then ChunkReason(u.(content := []), req.env, e)
    else
      || (e == FinishError && u.Complete() && !req.env.finishOk)
      || (e == HookError && u.Complete() && req.env.finishOk && !req.env.hookOk)
  }

  predicate Late(e: HandlerError) {
    e.TooMuch? || e.StoreError? || e.BodyError? || e.FinishError? || e.HookError?
  }

  lemma PlainFailure(cfg: Config, s: Server, req: Request, info: Info)
    requires req.Post? && req.env.written <= |req.env.got| && !info.isFinal
    ensures var resp := PostPlain(cfg, s, req, info).1;
            resp.Failed? ==> Late(resp.error) && LateReason(Upload(info, if req.containsChunk then req.env.got else []), req, resp.error)
  {
    hide WriteChunk;
    ChunkAnswer(cfg, NewUpload(s, req.id, info), req.id, req.env);
  }

  lemma FinalFailure(cfg: Config, s: Server, req: Request, ids: seq<Id>, content: bytes)
    requires req.Post?
    ensures var resp := PostFinal(cfg, s, req, ids, content).1;
            resp.Failed? ==>
              || (resp.error == MaxSizeExceeded && !Within(cfg, |content|))
              || (resp.error == CreateError && !req.env.createOk)
              || (Late(resp.error) && LateReason(Upload(Info(|content|, false, false, true, ids), content), req, resp.error))
  {
  }

  lemma {:induction false} ConcatenateReason(s: Server, ids: seq<Id>)
    ensures Concatenate(s, ids) == Err(NotFound) ==> exists i :: 0 <= i < |ids| && ids[i] !in s.uploads
    ensures Concatenate(s, ids) == Err(NotFinished) ==>
              exists i :: 0 <= i < |ids| && ids[i] in s.uploads && !s.uploads[ids[i]].Complete()
    ensures Concatenate(s, ids).Err? ==> Concatenate(s, ids).error.NotFound? || Concatenate(s, ids).error.NotFinished?
  {
    if ids != [] {
      ConcatenateReason(s, ids[1..]);
      assert forall i :: 0 <= i < |ids[1..]| ==> ids[1..][i] == ids[i + 1];
    }
  }

  /** If a POST fails, the error names the reason. */
  lemma PostFailure(cfg: Config, s: Server, req: Request)
    requires req.Post? && req.env.written <= |req.env.got|
    ensures PostFile(cfg, s, req).1.Failed? ==> PostReason(cfg, s, req, PostFile(cfg, s, req).1.error)
  {
    hide PostPlain, PostFinal, LateReason, Concatenate;
    match Kind(cfg, req)
    case BadConcat =>
    case FinalUpload(ids) =>
      ConcatenateReason(s, ids);
      if Concatenate(s, ids).Ok? {
        FinalFailure(cfg, s, req, ids, Concatenate(s, ids).value);
      }
    case _ =>
      var v := ValidateLength(cfg, req.length, req.defer);
      if v.Ok? {
        PlainFailure(cfg, s, req, Info(v.value.0, v.value.1, Kind(cfg, req).PartialUpload?, false, []));
      }
  }

  // --------------------------------------------------------------------- DELETE

  /** A DELETE succeeds exactly if termination is supported, the upload exists, and hook and store
      let it go; HEAD then no longer finds it. Otherwise nothing changes. */
  lemma DeleteAnswer(cfg: Config, s: Server, id: Id, terminateOk: bool)
    ensures var (s', resp) := DelFile(cfg, s, id, terminateOk);
            && (resp == Deleted <==> cfg.usesTerminater && HeadFile(s, id).Head? && terminateOk)
            && (resp == Deleted ==> HeadFile(s', id) == Failed(NotFound) && s'.uploads == s.uploads - {id})
            && (resp != Deleted ==> s' == s)
            && (resp == Failed(NotImplemented) <==> !cfg.usesTerminater)
            && (resp == Failed(NotFound) <==> cfg.usesTerminater && HeadFile(s, id) == Failed(NotFound))
            && (resp == Failed(TerminateError) <==> cfg.usesTerminater && HeadFile(s, id).Head? && !terminateOk)
  {
  }

  // ----------------------------------------------------------------- termination

  function Terminations(log: seq<Event>, id: Id): nat {
    if log == [] then 0
    else Terminations(log[..|log| - 1], id) + if log[|log| - 1] == Terminated(id) then 1 else 0
  }

  lemma TerminationsSnoc(log: seq<Event>, e: Event)
    ensures forall id: Id :: Terminations(log + [e], id) == Terminations(log, id) + if e == Terminated(id) then 1 else 0
  {
    assert (log + [e])[..|log|] == log;
  }

  function Gone(s: Server, id: Id): nat {
    if id in s.created && id !in s.uploads then 1 else 0
  }

  lemma FinishTerminatesNone(s: Server, id: Id, info: Info, content: bytes, env: Env)
    ensures forall other: Id :: Terminations(FinishIfComplete(s, id, info, content, env).0.log, other) == Terminations(s.log, other)
  {
    hide Terminations;
    TerminationsSnoc(s.log, FinishCall(id, content));
    TerminationsSnoc(s.log + [FinishCall(id, content)], Emitted(id));
  }

  lemma ChunkTerminates(cfg: Config, s: Server, id: Id, env: Env)
    requires id in s.uploads && env.written <= |env.got| && id in s.created
    ensures var s' := WriteChunk(cfg, s, id, env).0;
            forall other: Id :: Terminations(s'.log, other) - Gone(s', other) == Terminations(s.log, other) - Gone(s, other)
  {
    hide Terminations, FinishIfComplete, FinishCalls, Emissions, Extends;
    var u := s.uploads[id];
    var content := u.content + env.got[..env.written];
    var s1 := s.(uploads := s.uploads[id := u.(content := content)]);
    TerminationsSnoc(s1.log, Terminated(id));
    FinishTerminatesNone(s1, id, u.info, content, env);
    FinishTerminatesNone(Terminate(s1, id), id, u.info, content, env);
    FinishExtends(s1, id, u.info, content, env);
    FinishExtends(Terminate(s1, id), id, u.info, content, env);
  }

  lemma PostTerminates(cfg: Config, s: Server, req: Request)
    requires req.Post? && req.env.written <= |req.env.got| && req.id !in s.created && req.id !in s.uploads
    ensures var s' := PostFile(cfg, s, req).0;
            forall other: Id :: Terminations(s'.log, other) - Gone(s', other) == Terminations(s.log, other) - Gone(s, other)
  {
    hide Terminations, FinishIfComplete, WriteChunk, Concatenate, FinishCalls, Emissions, Extends;
    forall info: Info
      ensures var s' := PostPlain(cfg, s, req, info).0;
              forall other: Id :: Terminations(s'.log, other) - Gone(s', other) == Terminations(s.log, other) - Gone(s, other)
    {
      var s1 := NewUpload(s, req.id, info);
      ChunkTerminates(cfg, s1, req.id, req.env);
      FinishTerminatesNone(s1, req.id, info, [], req.env);
      FinishExtends(s1, req.id, info, [], req.env);
    }
    forall ids, content: bytes
      ensures var s' := PostFinal(cfg, s, req, ids, content).0;
              forall other: Id :: Terminations(s'.log, other) - Gone(s', other) == Terminations(s.log, other) - Gone(s, other)
    {
      var info := Info(|content|, false, false, true, ids);
      var s2 := NewUpload(s, req.id, info).(uploads := s.uploads[req.id := Upload(info, [])][req.id := Upload(info, content)]);
      var s3 := s2.(log := s2.log + [Emitted(req.id)]);
      TerminationsSnoc(s2.log, Emitted(req.id));
      FinishTerminatesNone(s3, req.id, info, content, req.env);
      FinishExtends(s3, req.id, info, content, req.env);
    }
  }

  lemma StepTerminates(cfg: Config, s: Server, req: Request, id: Id)
    requires Inv(cfg, s) && Possible(cfg, s, req)
    ensures var s' := Serve(cfg, s, req).0;
            Terminations(s'.log, id) - Gone(s', id) == Terminations(s.log, id) - Gone(s, id)
  {
    hide Terminations, WriteChunk, PostFile, Arrives, BodyLimit, FinishCalls, Emissions;
    assert IdOk(cfg, s, req.id);
    match req
    case Post(_, _, _, _, _, _) => PostTerminates(cfg, s, req);
    case Patch(_, _, _, _, _) =>
      if req.id in s.uploads {
        var u := s.uploads[req.id];
        var d := DeclareLength(cfg, u, req.length);
        if d.Ok? {
          ChunkTerminates(cfg, s.(uploads := s.uploads[req.id := u.(info := d.value)]), req.id, req.env);
        }
      }
    case Delete(other, _) => TerminationsSnoc(s.log, Terminated(other));
    case HeadOf(_) =>
  }

  /** In every state of every run an upload's termination was announced once if it is gone, and
      not at all before that. */
  lemma {:induction false} TerminatedOnce(cfg: Config, states: seq<Server>, reqs: seq<Request>, i: nat, id: Id)
    requires IsRun(cfg, states, reqs) && i < |states|
    ensures Terminations(states[i].log, id) == if id in states[i].created && id !in states[i].uploads then 1 else 0
  {
    hide Possible, Serve;
    if i > 0 {
      TerminatedOnce(cfg, states, reqs, i - 1, id);
      RunKeepsInv(cfg, states, reqs, i - 1);
      StepTerminates(cfg, states[i - 1], reqs[i - 1], id);
    }
  }

  // ---------------------------------------------------- what HEAD says over a run

  /** Over any stretch of any run HEAD's offset never falls, and a length and the kind of upload,
      once reported, stay. */
  lemma HeadIsStable(cfg: Config, states: seq<Server>, reqs: seq<Request>, i: nat, j: nat, id: Id)
    requires IsRun(cfg, states, reqs) && i <= j < |states| && id in states[i].uploads && id in states[j].uploads
    ensures var (before, after) := (HeadFile(states[i], id), HeadFile(states[j], id));
            && before.Head? && after.Head? && before.offset <= after.offset && before.concat == after.concat
            && (before.length.Some? ==> after.length == before.length)
  {
    hide Possible, Serve;
    RunGrows(cfg, states, reqs, i, j, id);
  }

  /** From an accepted POST on HEAD reports the length it named and the kind of upload it asked for. */
  lemma LengthFromPost(cfg: Config, states: seq<Server>, reqs: seq<Request>, i: nat, j: nat)
    requires IsRun(cfg, states, reqs) && i < j < |states| && reqs[i].Post?
    requires reqs[i].env.written <= |reqs[i].env.got| && PostFile(cfg, states[i], reqs[i]).1.CreatedAt?
    requires PostFile(cfg, states[i], reqs[i]).1.id in states[j].uploads
    ensures var head := HeadFile(states[j], PostFile(cfg, states[i], reqs[i]).1.id);
            && head.Head? && head.concat == Kind(cfg, reqs[i])
            && (!Kind(cfg, reqs[i]).FinalUpload? && reqs[i].length.Value? ==> head.length == Some(reqs[i].length.n))
            && (Kind(cfg, reqs[i]).FinalUpload? ==> head.length == Some(head.offset))
  {
    hide Possible, PostFile, Concatenate, HeadFile, FinishCalls, Emissions;
    var id := PostFile(cfg, states[i], reqs[i]).1.id;
    CreatedIsNew(cfg, states[i], reqs[i]);
    PostAnswer(cfg, states[i], reqs[i]);
    HeadIsStable(cfg, states, reqs, i + 1, j, id);
    RunGrows(cfg, states, reqs, i + 1, j, id);
    HeadOfFinal(states[i + 1], id, states[j]);
  }

  lemma CreatedIsNew(cfg: Config, s: Server, req: Request)
    requires Possible(cfg, s, req) && req.Post?
    ensures req.id !in s.created
  {
  }

  lemma HeadOfFinal(s: Server, id: Id, s': Server)
    requires id in s.uploads && id in s'.uploads && Grows(s.uploads[id], s'.uploads[id])
    ensures HeadFile(s, id).Head? && (HeadFile(s, id).concat.FinalUpload? ==> HeadFile(s', id) == HeadFile(s, id))
  {
  }

  /** A PATCH that declares a length for a deferred upload makes HEAD report it from then on,
      whether or not its chunk succeeds. */
  lemma LengthFromPatch(cfg: Config, states: seq<Server>, reqs: seq<Request>, i: nat, j: nat)
    requires IsRun(cfg, states, reqs) && i < j < |states| && reqs[i].Patch? && reqs[i].id in states[j].uploads
    requires HeadFile(states[i], reqs[i].id).Head? && HeadFile(states[i], reqs[i].id).length.None?
    requires reqs[i].contentTypeOk && reqs[i].offset == Value(HeadFile(states[i], reqs[i].id).offset)
    requires !states[i].uploads[reqs[i].id].info.isFinal
    requires reqs[i].length.Value? && MayDeclare(cfg, states[i].uploads[reqs[i].id], reqs[i].length)
    ensures HeadFile(states[j], reqs[i].id).Head? && HeadFile(states[j], reqs[i].id).length == Some(reqs[i].length.n)
  {
    hide WriteChunk, Arrives, BodyLimit, FinishCalls, Emissions, Extends;
    var s, req := states[i], reqs[i];
    var id, u := req.id, s.uploads[req.id];
    var s1 := s.(uploads := s.uploads[id := Declared(u, req.length)]);
    WriteChunkEffect(cfg, s1, id, req.env);
    if id !in states[i + 1].uploads {
      RunKeepsInv(cfg, states, reqs, i);
      assert IdOk(cfg, s, id);
      RunRemembers(cfg, states, reqs, i, i + 1, id);
      RunRemembers(cfg, states, reqs, i + 1, j, id);
    }
    HeadIsStable(cfg, states, reqs, i + 1, j, id);
  }

  /** And only so: a length that HEAD did not report before was declared by a PATCH in between. */
  lemma {:induction false} LengthOnlyFromPatch(cfg: Config, states: seq<Server>, reqs: seq<Request>, i: nat, j: nat, id: Id)
    requires IsRun(cfg, states, reqs) && i <= j < |states| && id in states[i].uploads && id in states[j].uploads
    requires HeadFile(states[i], id).length.None? && HeadFile(states[j], id).length.Some?
    ensures exists k :: i <= k < j && reqs[k].Patch? && reqs[k].id == id && reqs[k].length == Value(HeadFile(states[j], id).length.value)
  {
    hide Possible, Serve, FinishCalls, Emissions;
    RunGrows(cfg, states, reqs, i, j, id);
    var k := j - 1;
    if HeadFile(states[k], id).length.Some? {
      LengthOnlyFromPatch(cfg, states, reqs, i, k, id);
      HeadIsStable(cfg, states, reqs, k, j, id);
    } else {
      RunKeepsInv(cfg, states, reqs, k);
      assert IdOk(cfg, states[k], id);
      StepDeclares(cfg, states[k], reqs[k], id);
    }
  }

  lemma StepDeclares(cfg: Config, s: Server, req: Request, id: Id)
    requires Possible(cfg, s, req) && id in s.uploads && id in Serve(cfg, s, req).0.uploads && id in s.created
    requires s.uploads[id].info.deferred && !Serve(cfg, s, req).0.uploads[id].info.deferred
    ensures req.Patch? && req.id == id && req.length == Value(Serve(cfg, s, req).0.uploads[id].info.size)
  {
    hide WriteChunk, Arrives, BodyLimit, FinishCalls, Emissions, PostFile;
    if req.Post? {
      PostExtends(cfg, s, req);
    } else if req.Patch? && req.id in s.uploads {
      var u := s.uploads[req.id];
      var d := DeclareLength(cfg, u, req.length);
      if d.Ok? {
        WriteChunkEffect(cfg, s.(uploads := s.uploads[req.id := u.(info := d.value)]), req.id, req.env);
      }
    }
  }
}
