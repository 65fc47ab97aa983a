/** What every run of requests keeps: bounds, finishing once, resuming, and what can strand an upload. */
module HandlerTheorems {
  import opened Streams
  import BodyReader
  import opened HandlerSpec

  // ------------------------------------------------------------ counting events

  function FinishCalls(log: seq<Event>, id: Id): nat {
    if log == [] then 0
    else FinishCalls(log[..|log| - 1], id) + if log[|log| - 1].FinishCall? && log[|log| - 1].id == id then 1 else 0
  }

  function Emissions(log: seq<Event>, id: Id): nat {
    if log == [] then 0
    else Emissions(log[..|log| - 1], id) + if log[|log| - 1] == Emitted(id) then 1 else 0
  }

  lemma CountSnoc(log: seq<Event>, e: Event)
    ensures forall id: Id :: FinishCalls(log + [e], id) == FinishCalls(log, id) + if e.FinishCall? && e.id == id then 1 else 0
    ensures forall id: Id :: Emissions(log + [e], id) == Emissions(log, id) + if e == Emitted(id) then 1 else 0
  {
    assert (log + [e])[..|log|] == log;
  }

  // -------------------------------------------------------------- the invariant

  ghost predicate UploadOk(cfg: Config, u: Upload) {
    && (!u.info.deferred ==> |u.content| <= u.info.size)
    && (!u.info.deferred && cfg.maxSize > 0 ==> u.info.size <= cfg.maxSize)
    && (u.info.isFinal ==> !u.info.deferred)
  }

  /** Everything known about one id: finishing happened at most once, and only to a complete upload. */
  ghost predicate IdOk(cfg: Config, s: Server, id: Id) {
    var calls, emits := FinishCalls(s.log, id), Emissions(s.log, id);
    && (id !in s.created ==> id !in s.uploads && calls == 0 && emits == 0)
    && (id in s.created ==> calls <= 1 && emits <= calls + if s.created[id] then 1 else 0)
    && (id in s.uploads ==>
          && UploadOk(cfg, s.uploads[id])
          && (id in s.created && s.uploads[id].info.isFinal == s.created[id])
          && (calls > 0 ==> s.uploads[id].Complete())
          && (calls > 0 && s.created[id] ==> s.uploads[id].info.size == 0))
  }

  ghost predicate Inv(cfg: Config, s: Server) {
    forall id: Id :: IdOk(cfg, s, id)
  }

  // -------------------------------------------------- one request, other ids

  /** The log is only extended, and only by events of the id the request is about. */
  ghost predicate Extends(s: Server, s': Server, id: Id) {
    && (forall other: Id :: other != id ==>
                              && FinishCalls(s'.log, other) == FinishCalls(s.log, other)
                              && Emissions(s'.log, other) == Emissions(s.log, other)
                              && (other in s'.uploads <==> other in s.uploads)
                              && (other in s.uploads ==> s'.uploads[other] == s.uploads[other])
                              && (other in s'.created <==> other in s.created)
                              && (other in s.created ==> s'.created[other] == s.created[other]))
  }

  lemma ExtendsTrans(a: Server, b: Server, c: Server, id: Id)
    requires Extends(a, b, id) && Extends(b, c, id)
    ensures Extends(a, c, id)
  {
    hide FinishCalls, Emissions;
  }

  lemma UpdateExtends(s: Server, id: Id, u: Upload)
    ensures Extends(s, s.(uploads := s.uploads[id := u]), id)
  {
    hide FinishCalls, Emissions;
  }

  lemma FinishExtends(s: Server, id: Id, info: Info, content: bytes, env: Env)
    ensures var (s', err) := FinishIfComplete(s, id, info, content, env);
            && Extends(s, s', id) && s'.uploads == s.uploads && s'.created == s.created
            && var done := !info.deferred && |content| == info.size;
               && (err.None? <==> (done ==> env.finishOk && env.hookOk))
               && FinishCalls(s'.log, id) == FinishCalls(s.log, id) + (if done then 1 else 0)
               && Emissions(s'.log, id) == Emissions(s.log, id) + (if done && env.finishOk && env.hookOk then 1 else 0)
  {
    hide FinishCalls, Emissions;
    var s1 := s.(log := s.log + [FinishCall(id, content)]);
    CountSnoc(s.log, FinishCall(id, content));
    CountSnoc(s1.log, Emitted(id));
  }

  lemma TerminateExtends(s: Server, id: Id)
    ensures var s' := Terminate(s, id);
            && Extends(s, s', id) && s'.created == s.created && id !in s'.uploads
            && FinishCalls(s'.log, id) == FinishCalls(s.log, id)
            && Emissions(s'.log, id) == Emissions(s.log, id)
  {
    hide FinishCalls, Emissions;
    CountSnoc(s.log, Terminated(id));
  }

  /** What writeChunk does to the one upload it is about. */
  lemma WriteChunkEffect(cfg: Config, s: Server, id: Id, env: Env)
    requires id in s.uploads && env.written <= |env.got|
    ensures var u := s.uploads[id];
            var (s', err) := WriteChunk(cfg, s, id, env);
            && Extends(s, s', id) && s'.created == s.created
            && var refused := !u.info.deferred && |u.content| + env.contentLength > u.info.size;
               && (refused ==> s' == s)
               && (!refused ==>
                     var u' := u.(content := u.content + env.got[..env.written]);
                     && (id in s'.uploads ==> s'.uploads[id] == u')
                     && (id in s'.uploads <==> !(env.bodyErr == Some(BodyReader.StoppedByServer) && cfg.usesTerminater))
                     && FinishCalls(s'.log, id) == FinishCalls(s.log, id) + (if u'.Complete() then 1 else 0)
                     && Emissions(s'.log, id) ==
                        Emissions(s.log, id) + (if u'.Complete() && env.finishOk && env.hookOk then 1 else 0))
  {
    hide FinishCalls, Emissions, FinishIfComplete, Terminate, Extends;
    UpdateExtends(s, id, s.uploads[id]);
    assert s.(uploads := s.uploads[id := s.uploads[id]]) == s;
    var u := s.uploads[id];
    var content := u.content + env.got[..env.written];
    var s1 := s.(uploads := s.uploads[id := u.(content := content)]);
    TerminateExtends(s1, id);
    var s2 := if env.bodyErr == Some(BodyReader.StoppedByServer) && cfg.usesTerminater then Terminate(s1, id) else s1;
    FinishExtends(s2, id, u.info, content, env);
    UpdateExtends(s, id, u.(content := content));
    if s2 != s1 {
      ExtendsTrans(s, s1, s2, id);
    }
    ExtendsTrans(s, s2, FinishIfComplete(s2, id, u.info, content, env).0, id);
  }

  /** A chunk never overruns a declared length. */
  lemma ChunkFits(cfg: Config, u: Upload, env: Env)
    requires UploadOk(cfg, u) && !u.info.deferred && |u.content| + env.contentLength <= u.info.size
    requires Arrives(BodyLimit(cfg, u.info, |u.content|, env.contentLength), env)
    ensures |u.content| + env.written <= u.info.size
  {
  }

  lemma InvByOneId(cfg: Config, s: Server, s': Server, id: Id)
    requires Inv(cfg, s) && Extends(s, s', id) && IdOk(cfg, s', id)
    ensures Inv(cfg, s')
  {
    hide FinishCalls, Emissions, UploadOk;
    forall other: Id ensures IdOk(cfg, s', other) {
      assert IdOk(cfg, s, other);
    }
  }

  // ------------------------------------------------------- every request kept

  /** writeChunk on an upload nobody has finished yet. */
  lemma WriteChunkKeeps(cfg: Config, s: Server, id: Id, env: Env)
    requires Inv(cfg, s) && id in s.uploads && env.written <= |env.got|
    requires !s.uploads[id].info.isFinal && FinishCalls(s.log, id) == 0
    requires Arrives(BodyLimit(cfg, s.uploads[id].info, |s.uploads[id].content|, env.contentLength), env)
    ensures Inv(cfg, WriteChunk(cfg, s, id, env).0)
    ensures Extends(s, WriteChunk(cfg, s, id, env).0, id)
  {
    hide FinishCalls, Emissions, WriteChunk, Extends, Arrives;
    WriteChunkEffect(cfg, s, id, env);
    assert IdOk(cfg, s, id);
    var u := s.uploads[id];
    if !u.info.deferred && |u.content| + env.contentLength <= u.info.size {
      ChunkFits(cfg, u, env);
    }
    InvByOneId(cfg, s, WriteChunk(cfg, s, id, env).0, id);
  }

  lemma PatchKeepsInv(cfg: Config, s: Server, req: Request)
    requires Inv(cfg, s) && req.Patch? && Possible(cfg, s, req)
    ensures Inv(cfg, PatchFile(cfg, s, req).0)
  {
    hide FinishCalls, Emissions, WriteChunk, Extends, Arrives, BodyLimit;
    if req.id in s.uploads {
      var id, u := req.id, s.uploads[req.id];
      assert IdOk(cfg, s, id);
      if !u.info.isFinal && !u.Complete() && DeclareLength(cfg, u, req.length).Ok? {
        var u1 := u.(info := DeclareLength(cfg, u, req.length).value);
        var s1 := s.(uploads := s.uploads[id := u1]);
        UpdateExtends(s, id, u1);
        InvByOneId(cfg, s, s1, id);
        WriteChunkKeeps(cfg, s1, id, req.env);
      }
    }
  }

  lemma NewUploadKeeps(cfg: Config, s: Server, id: Id, u: Upload)
    requires Inv(cfg, s) && id !in s.created && UploadOk(cfg, u)
    ensures var s' := s.(uploads := s.uploads[id := u], created := s.created[id := u.info.isFinal]);
            Inv(cfg, s') && Extends(s, s', id) && FinishCalls(s'.log, id) == 0 && Emissions(s'.log, id) == 0
  {
    hide FinishCalls, Emissions, UploadOk;
    assert IdOk(cfg, s, id);
    InvByOneId(cfg, s, s.(uploads := s.uploads[id := u], created := s.created[id := u.info.isFinal]), id);
  }

  lemma FinishKeeps(cfg: Config, s: Server, id: Id, env: Env)
    requires Inv(cfg, s) && id in s.uploads && FinishCalls(s.log, id) == 0
    requires Emissions(s.log, id) <= if s.uploads[id].info.isFinal then 1 else 0
    requires s.uploads[id].info.isFinal ==> s.uploads[id].info.size == 0
    ensures Inv(cfg, FinishIfComplete(s, id, s.uploads[id].info, s.uploads[id].content, env).0)
  {
    hide FinishCalls, Emissions, FinishIfComplete, Extends;
    FinishExtends(s, id, s.uploads[id].info, s.uploads[id].content, env);
    assert IdOk(cfg, s, id);
    InvByOneId(cfg, s, FinishIfComplete(s, id, s.uploads[id].info, s.uploads[id].content, env).0, id);
  }

  lemma PostPlainKeepsInv(cfg: Config, s: Server, req: Request, info: Info)
    requires Inv(cfg, s) && req.Post? && req.id !in s.created && req.env.written <= |req.env.got|
    requires !info.isFinal && (!info.deferred && cfg.maxSize > 0 ==> info.size <= cfg.maxSize)
    requires Arrives(BodyLimit(cfg, info, 0, req.env.contentLength), req.env)
    ensures Inv(cfg, PostPlain(cfg, s, req, info).0)
  {
    hide FinishCalls, Emissions, WriteChunk, Extends, Arrives, FinishIfComplete, BodyLimit;
    NewUploadKeeps(cfg, s, req.id, Upload(info, []));
    var s1 := NewUpload(s, req.id, info);
    if req.containsChunk {
      WriteChunkKeeps(cfg, s1, req.id, req.env);
    } else if !info.deferred && info.size == 0 {
      FinishKeeps(cfg, s1, req.id, req.env);
    }
  }

  /** A final upload's finish event is sent once, and a second time exactly when it is empty. */
  lemma PostFinalEffect(cfg: Config, s: Server, req: Request, ids: seq<Id>, content: bytes)
    requires Inv(cfg, s) && req.Post? && req.id !in s.created
    ensures var (s', resp) := PostFinal(cfg, s, req, ids, content);
            && Inv(cfg, s')
            && (resp.CreatedAt? ==>
                  && req.id in s'.uploads && s'.uploads[req.id].content == content && s'.uploads[req.id].Complete()
                  && Emissions(s'.log, req.id) == (if content == [] then 2 else 1))
  {
    hide FinishCalls, Emissions, FinishIfComplete, Extends;
    if !(cfg.maxSize > 0 && |content| > cfg.maxSize) {
      var u := Upload(Info(|content|, false, false, true, ids), content);
      NewUploadKeeps(cfg, s, req.id, u.(content := []));
      NewUploadKeeps(cfg, s, req.id, u);
      var s2 := s.(uploads := s.uploads[req.id := u], created := s.created[req.id := true]);
      assert s.uploads[req.id := Upload(u.info, [])][req.id := u] == s.uploads[req.id := u];
      if req.env.hookOk {
        var s3 := s2.(log := s2.log + [Emitted(req.id)]);
        EmitKeeps(cfg, s2, req.id);
        if content == [] {
          FinishKeeps(cfg, s3, req.id, req.env);
          FinishExtends(s3, req.id, u.info, content, req.env);
        }
      }
    }
  }

  lemma EmitKeeps(cfg: Config, s: Server, id: Id)
    requires Inv(cfg, s) && id in s.uploads && s.uploads[id].info.isFinal && FinishCalls(s.log, id) == Emissions(s.log, id) == 0
    ensures var s' := s.(log := s.log + [Emitted(id)]);
            Inv(cfg, s') && FinishCalls(s'.log, id) == 0 && Emissions(s'.log, id) == 1
  {
    hide FinishCalls, Emissions, UploadOk;
    CountSnoc(s.log, Emitted(id));
    assert IdOk(cfg, s, id);
    InvByOneId(cfg, s, s.(log := s.log + [Emitted(id)]), id);
  }

  lemma ServeKeepsInv(cfg: Config, s: Server, req: Request)
    requires Inv(cfg, s) && Possible(cfg, s, req)
    ensures Inv(cfg, Serve(cfg, s, req).0)
  {
    hide FinishCalls, Emissions, PostPlain, PostFinal, PatchFile, Arrives, Extends, IdOk, BodyLimit;
    match req
    case Post(_, _, _, _, _, _) =>
      var concat := if cfg.usesConcater then req.concat else NoConcat;
      if concat.FinalUpload? {
        var content := Concatenate(s, concat.ids);
        if content.Ok? {
          PostFinalEffect(cfg, s, req, concat.ids, content.value);
        }
      } else {
        var v := ValidateLength(cfg, req.length, req.defer);
        if v.Ok? && !(cfg.maxSize > 0 && v.value.0 > cfg.maxSize) {
          var info := Info(v.value.0, v.value.1, concat.PartialUpload?, false, []);
          LimitIgnoresKind(cfg, info, 0, req.env.contentLength);
          PostPlainKeepsInv(cfg, s, req, info);
        }
      }
    case Patch(_, _, _, _, _) => PatchKeepsInv(cfg, s, req);
    case HeadOf(_) =>
    case Delete(id, ok) =>
      if cfg.usesTerminater && id in s.uploads {
        TerminateExtends(s, id);
        DeleteKeeps(cfg, s, id);
      }
  }

  lemma LimitIgnoresKind(cfg: Config, info: Info, offset: nat, contentLength: int)
    ensures BodyLimit(cfg, info, offset, contentLength) ==
            BodyLimit(cfg, Info(info.size, info.deferred, false, false, []), offset, contentLength)
  {
  }

  lemma DeleteKeeps(cfg: Config, s: Server, id: Id)
    requires Inv(cfg, s) && id in s.uploads
    ensures Inv(cfg, Terminate(s, id))
  {
    hide FinishCalls, Emissions, Extends, Terminate;
    TerminateExtends(s, id);
    assert IdOk(cfg, s, id);
    InvByOneId(cfg, s, Terminate(s, id), id);
  }

  // ------------------------------------------------------------- whole runs

  const EMPTY := Server(map[], map[], [])

  ghost predicate IsRun(cfg: Config, states: seq<Server>, reqs: seq<Request>) {
    && |states| == |reqs| + 1 && states[0] == EMPTY
    && (forall i :: 0 <= i < |reqs| ==> Possible(cfg, states[i], reqs[i]) && states[i + 1] == Serve(cfg, states[i], reqs[i]).0)
  }

  lemma {:induction false} RunKeepsInv(cfg: Config, states: seq<Server>, reqs: seq<Request>, i: nat)
    requires IsRun(cfg, states, reqs) && i < |states|
    ensures Inv(cfg, states[i])
  {
    hide Possible, Serve;
    if i > 0 {
      RunKeepsInv(cfg, states, reqs, i - 1);
      ServeKeepsInv(cfg, states[i - 1], reqs[i - 1]);
    }
  }

  /**
   * In every state of every run: an upload with a declared length has an offset within it, and
   * the length is within the limit if one is set; FinishUpload was called at most once per
   * upload and only to a complete one; the finish event was sent at most once, except for
   * final uploads, which can have one more.
   */
  lemma RunBounds(cfg: Config, states: seq<Server>, reqs: seq<Request>, i: nat, id: Id)
    requires IsRun(cfg, states, reqs) && i < |states|
    ensures var s := states[i];
            && FinishCalls(s.log, id) <= 1
            && Emissions(s.log, id) <= FinishCalls(s.log, id) + (if id in s.created && s.created[id] then 1 else 0)
            && (id in s.uploads ==>
                  var u := s.uploads[id];
                  && (!u.info.deferred ==> |u.content| <= u.info.size && (cfg.maxSize > 0 ==> u.info.size <= cfg.maxSize))
                  && (FinishCalls(s.log, id) > 0 ==> u.Complete()))
  {
    hide FinishCalls, Emissions, Possible, Serve;
    RunKeepsInv(cfg, states, reqs, i);
    assert IdOk(cfg, states[i], id);
  }

  // ------------------------------------------------------- what never changes

  /** An upload only ever grows at the end, a declared length and the kind of upload are fixed,
      and a final upload is never written. */
  ghost predicate Grows(u: Upload, u': Upload) {
    && u.content <= u'.content
    && (!u.info.deferred ==> u'.info == u.info)
    && u'.info == u.info.(size := u'.info.size, deferred := u'.info.deferred)
    && (u.info.isFinal ==> u' == u)
  }

  lemma ServeGrows(cfg: Config, s: Server, req: Request, id: Id)
    requires Inv(cfg, s) && Possible(cfg, s, req)
    requires id in s.uploads && id in Serve(cfg, s, req).0.uploads
    ensures Grows(s.uploads[id], Serve(cfg, s, req).0.uploads[id])
  {
    hide FinishCalls, Emissions, Arrives, BodyLimit;
    assert IdOk(cfg, s, id);
    if req.Patch? && req.id == id {
      PatchGrows(cfg, s, req);
    } else if req.Post? {
      PostExtends(cfg, s, req);
    }
  }

  /** The store never forgets an id it has handed out, and a deleted upload never comes back. */
  lemma ServeRemembers(cfg: Config, s: Server, req: Request, id: Id)
    requires Possible(cfg, s, req) && id in s.created
    ensures id in Serve(cfg, s, req).0.created
    ensures id !in s.uploads ==> id !in Serve(cfg, s, req).0.uploads
  {
    hide FinishCalls, Emissions, Arrives, BodyLimit, PostFile, WriteChunk, Concatenate;
    if req.Post? {
      PostExtends(cfg, s, req);
    } else if req.Patch? && req.id in s.uploads {
      var u := s.uploads[req.id];
      if DeclareLength(cfg, u, req.length).Ok? {
        var s1 := s.(uploads := s.uploads[req.id := u.(info := DeclareLength(cfg, u, req.length).value)]);
        WriteChunkEffect(cfg, s1, req.id, req.env);
      }
    }
  }

  lemma {:induction false} RunRemembers(cfg: Config, states: seq<Server>, reqs: seq<Request>, i: nat, j: nat, id: Id)
    requires IsRun(cfg, states, reqs) && i <= j < |states| && id in states[i].created
    ensures id in states[j].created
    ensures id !in states[i].uploads ==> id !in states[j].uploads
  {
    hide Possible, Serve;
    if i < j {
      RunRemembers(cfg, states, reqs, i, j - 1, id);
      ServeRemembers(cfg, states[j - 1], reqs[j - 1], id);
    }
  }

  /**
   * Over any stretch of any run an upload that is there at both ends was there throughout and
   * only grew at its end: its offset never decreased, a declared length never changed, and a
   * final upload was not written at all.
   */
  lemma {:induction false} RunGrows(cfg: Config, states: seq<Server>, reqs: seq<Request>, i: nat, j: nat, id: Id)
    requires IsRun(cfg, states, reqs) && i <= j < |states| && id in states[i].uploads && id in states[j].uploads
    ensures Grows(states[i].uploads[id], states[j].uploads[id])
    ensures forall k :: i <= k <= j ==> id in states[k].uploads
  {
    hide Possible, Serve, FinishCalls, Emissions;
    if i < j {
      RunKeepsInv(cfg, states, reqs, j - 1);
      assert id in states[j - 1].uploads by {
        RunKeepsInv(cfg, states, reqs, i);
        assert IdOk(cfg, states[i], id);
        RunRemembers(cfg, states, reqs, i, j - 1, id);
        RunRemembers(cfg, states, reqs, j - 1, j, id);
      }
      RunGrows(cfg, states, reqs, i, j - 1, id);
      ServeGrows(cfg, states[j - 1], reqs[j - 1], id);
    }
  }

  lemma PatchGrows(cfg: Config, s: Server, req: Request)
    requires req.Patch? && req.env.written <= |req.env.got| && req.id in s.uploads && req.id in PatchFile(cfg, s, req).0.uploads
    ensures Grows(s.uploads[req.id], PatchFile(cfg, s, req).0.uploads[req.id])
  {
    hide FinishCalls, Emissions, WriteChunk, Extends;
    var u := s.uploads[req.id];
    if DeclareLength(cfg, u, req.length).Ok? {
      var s1 := s.(uploads := s.uploads[req.id := u.(info := DeclareLength(cfg, u, req.length).value)]);
      WriteChunkEffect(cfg, s1, req.id, req.env);
    }
  }

  lemma NewExtends(s: Server, id: Id, info: Info)
    ensures Extends(s, NewUpload(s, id, info), id)
  {
    hide FinishCalls, Emissions;
  }

  lemma PostPlainExtends(cfg: Config, s: Server, req: Request, info: Info)
    requires req.Post? && req.env.written <= |req.env.got|
    ensures Extends(s, PostPlain(cfg, s, req, info).0, req.id)
  {
    hide FinishCalls, Emissions, WriteChunk, FinishIfComplete, Extends;
    var s1 := NewUpload(s, req.id, info);
    NewExtends(s, req.id, info);
    WriteChunkEffect(cfg, s1, req.id, req.env);
    FinishExtends(s1, req.id, info, [], req.env);
    ExtendsTrans(s, s1, WriteChunk(cfg, s1, req.id, req.env).0, req.id);
    ExtendsTrans(s, s1, FinishIfComplete(s1, req.id, info, [], req.env).0, req.id);
  }

  lemma EmitExtends(s: Server, id: Id)
    ensures Extends(s, s.(log := s.log + [Emitted(id)]), id)
  {
    hide FinishCalls, Emissions;
    CountSnoc(s.log, Emitted(id));
  }

  lemma PostFinalExtends(cfg: Config, s: Server, req: Request, ids: seq<Id>, content: bytes)
    requires req.Post?
    ensures Extends(s, PostFinal(cfg, s, req, ids, content).0, req.id)
  {
    hide FinishCalls, Emissions, FinishIfComplete, Extends;
    var info := Info(|content|, false, false, true, ids);
    var s1 := NewUpload(s, req.id, info);
    var s2 := s1.(uploads := s1.uploads[req.id := Upload(info, content)]);
    var s3 := s2.(log := s2.log + [Emitted(req.id)]);
    NewExtends(s, req.id, info);
    UpdateExtends(s1, req.id, Upload(info, content));
    ExtendsTrans(s, s1, s2, req.id);
    EmitExtends(s2, req.id);
    ExtendsTrans(s, s2, s3, req.id);
    FinishExtends(s3, req.id, info, content, req.env);
    ExtendsTrans(s, s3, FinishIfComplete(s3, req.id, info, content, req.env).0, req.id);
    SameExtends(s, req.id);
  }

  lemma SameExtends(s: Server, id: Id)
    ensures Extends(s, s, id)
  {
  }

  /** A POST touches no upload that already exists. */
  lemma PostExtends(cfg: Config, s: Server, req: Request)
    requires req.Post? && req.env.written <= |req.env.got|
    ensures Extends(s, PostFile(cfg, s, req).0, req.id)
  {
    hide PostPlain, PostFinal, Extends, Concatenate, ValidateLength;
    SameExtends(s, req.id);
    var concat := if cfg.usesConcater then req.concat else NoConcat;
    if concat.FinalUpload? {
      var content := Concatenate(s, concat.ids);
      if content.Ok? {
        PostFinalExtends(cfg, s, req, concat.ids, content.value);
      }
    } else {
      var v := ValidateLength(cfg, req.length, req.defer);
      if v.Ok? {
        PostPlainExtends(cfg, s, req, Info(v.value.0, v.value.1, concat.PartialUpload?, false, []));
      }
    }
  }

  /** The offset in a successful answer to PATCH, or to POST with a chunk, is what is stored then. */
  lemma ReportedOffset(cfg: Config, s: Server, req: Request)
    requires Possible(cfg, s, req)
    ensures var (s', resp) := Serve(cfg, s, req);
            && (req.Patch? && resp.NoContent? && req.id in s'.uploads ==> resp.offset == |s'.uploads[req.id].content|)
            && (req.Post? && resp.CreatedAt? && req.id in s'.uploads ==>
                  s'.uploads[req.id].info.isFinal || |s'.uploads[req.id].content| == if resp.sent.Some? then resp.sent.value else 0)
  {
    hide FinishCalls, Emissions, WriteChunk, FinishIfComplete, Arrives, BodyLimit, Concatenate, Extends;
    if req.Patch? && req.id in s.uploads {
      var u := s.uploads[req.id];
      var d := DeclareLength(cfg, u, req.length);
      if d.Ok? {
        var s1 := s.(uploads := s.uploads[req.id := u.(info := d.value)]);
        WriteChunkEffect(cfg, s1, req.id, req.env);
        WriteChunkRefuses(cfg, s1, req.id, req.env);
      }
    } else if req.Post? {
      forall info: Info
        ensures var (s', resp) := PostPlain(cfg, s, req, info);
                resp.CreatedAt? && req.id in s'.uploads ==>
                  |s'.uploads[req.id].content| == if resp.sent.Some? then resp.sent.value else 0
      {
        var s1 := NewUpload(s, req.id, info);
        WriteChunkEffect(cfg, s1, req.id, req.env);
        WriteChunkRefuses(cfg, s1, req.id, req.env);
        FinishExtends(s1, req.id, info, [], req.env);
      }
      forall ids, content: bytes
        ensures var (s', resp) := PostFinal(cfg, s, req, ids, content);
                resp.CreatedAt? && req.id in s'.uploads ==> s'.uploads[req.id].info.isFinal
      {
        var info := Info(|content|, false, false, true, ids);
        var s2 := NewUpload(s, req.id, info).(uploads := s.uploads[req.id := Upload(info, [])][req.id := Upload(info, content)]);
        FinishExtends(s2.(log := s2.log + [Emitted(req.id)]), req.id, info, content, req.env);
      }
    }
  }

  lemma WriteChunkRefuses(cfg: Config, s: Server, id: Id, env: Env)
    requires id in s.uploads && env.written <= |env.got|
    ensures !s.uploads[id].info.deferred && |s.uploads[id].content| + env.contentLength > s.uploads[id].info.size ==>
              WriteChunk(cfg, s, id, env).1 == Some(TooMuch)
    ensures |env.got[..env.written]| == env.written
  {
  }

  /** A final upload can be built exactly from complete uploads, and holds their bytes in order. */
  lemma {:induction false} ConcatenateExactly(s: Server, ids: seq<Id>)
    ensures Concatenate(s, ids).Ok? <==> forall i :: 0 <= i < |ids| ==> ids[i] in s.uploads && s.uploads[ids[i]].Complete()
    ensures Concatenate(s, ids).Ok? ==>
              Concatenate(s, ids).value == Flatten(seq(|ids|, i requires 0 <= i < |ids| && ids[i] in s.uploads => s.uploads[ids[i]].content))
  {
    if ids != [] {
      ConcatenateExactly(s, ids[1..]);
      if Concatenate(s, ids).Ok? {
        var all := seq(|ids|, i requires 0 <= i < |ids| && ids[i] in s.uploads => s.uploads[ids[i]].content);
        assert all[1..] == seq(|ids| - 1, i requires 0 <= i < |ids| - 1 && ids[1..][i] in s.uploads => s.uploads[ids[1..][i]].content);
      }
    }
  }
}
