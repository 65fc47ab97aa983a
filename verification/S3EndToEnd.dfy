/**
 * The request handler on the S3 store: the store operations a request makes are run on what S3
 * really keeps, and the bytes a client sends through all of this end up as its file.
 */
module S3EndToEnd {
  import opened Streams
  import opened PartSize
  import opened S3Spec
  import opened S3Theorems
  import BodyReader
  import Web = HandlerSpec
  import Runs = HandlerTheorems
  import Resume = HandlerResume
  import Answers = HandlerAnswers

  // ------------------------------------------- what a request does to the store

  predicate Refused(h: Handle, env: Web.Env)
    requires h.info.Some?
  {
    !h.info.value.deferred && h.info.value.offset + env.contentLength > h.info.value.size
  }

  predicate Stopped(web: Web.Config, env: Web.Env) {
    env.bodyErr == Some(BodyReader.StoppedByServer) && web.usesTerminater
  }

  function Count(out: Outcome): nat {
    if out.result.Ok? then out.result.value else 0
  }

  /** The handler's own copy of the info says that the upload is complete. */
  predicate Reached(h: Handle, out: Outcome)
    requires h.info.Some?
  {
    !h.info.value.deferred && h.info.value.offset + Count(out) == h.info.value.size
  }

  /** writeChunk: WriteChunk, then Terminate or FinishUpload, all on the same handle. */
  function Chunk(cfg: Config, web: Web.Config, h: Handle, r: Remote, env: Web.Env): Option<Remote>
    requires cfg.Valid() && h.info.Some?
  {
    if Refused(h, env) then Some(r)
    else
      var out := WriteChunk(cfg, h, r, h.info.value.offset, env.got);
      if Stopped(web, env) then None
      else if Reached(h, out) then Some(FinishUpload(cfg, out.handle, out.remote).0)
      else Some(out.remote)
  }

  /** The number of bytes the handler is told, and whether finishing worked, are S3's answers. */
  predicate Answered(cfg: Config, web: Web.Config, h: Handle, r: Remote, env: Web.Env)
    requires cfg.Valid() && h.info.Some?
  {
    Refused(h, env) ||
    var out := WriteChunk(cfg, h, r, h.info.value.offset, env.got);
    && env.written == Count(out)
    && (Reached(h, out) && !Stopped(web, env) ==> env.finishOk == FinishUpload(cfg, out.handle, out.remote).1.Ok?)
  }

  /** NewUpload: an open multipart upload, an info object, and a handle that already knows both. */
  function NewRemote(size: nat, deferred: bool): Remote {
    Remote(Some(Info(size, deferred, 0)), Some(map[]), None, None)
  }

  function NewHandle(size: nat, deferred: bool): Handle {
    Handle(Some(Info(size, deferred, 0)), [], 0)
  }

  /** The length of the upload a POST creates, or None if it does not get that far. */
  function NewLength(web: Web.Config, req: Web.Request): Option<(nat, bool)>
    requires req.Post?
  {
    var concat := if web.usesConcater then req.concat else Web.NoConcat;
    var v := Web.ValidateLength(web, req.length, req.defer);
    if !concat.NoConcat? && web.disableConcat then None
    else if !concat.NoConcat? && !concat.PartialUpload? then None
    else if v.Err? || (web.maxSize > 0 && v.value.0 > web.maxSize) || !req.env.createOk then None
    else Some(v.value)
  }

  /** The handle and the objects a PATCH writes to, or None if it is answered before that. What
      the handler knows about the upload is what GetInfo rebuilds from S3. */
  function Admitted(web: Web.Config, r: Remote, req: Web.Request): Option<(Handle, Remote)>
    requires r.info.Some? && req.Patch?
  {
    var h := Fetch(r).value;
    var info := h.info.value;
    if !req.contentTypeOk || req.offset != Web.Value(info.offset) then None
    else if !info.deferred && info.offset == info.size then None
    else if req.length.Absent? then Some((h, r))
    else if !web.usesDeferrer || !info.deferred || req.length.Malformed? then None
    else if req.length.n < info.offset || (web.maxSize > 0 && req.length.n > web.maxSize) then None
    else
      var out := DeclareLength(h, r, req.length.n);
      Some((out.handle, out.remote))
  }

  /** What is kept in S3 for the upload `id` after a request. */
  function Serve(cfg: Config, web: Web.Config, store: Option<Remote>, req: Web.Request, id: Web.Id): Option<Remote>
    requires cfg.Valid()
  {
    if req.id != id then store
    else
      match req
      case HeadOf(_) => store
      case Delete(_, ok) => if web.usesTerminater && ok then None else store
      case Post(_, _, _, _, containsChunk, env) => (
        match NewLength(web, req)
        case None => store
        case Some((size, deferred)) =>
          var h, r := NewHandle(size, deferred), NewRemote(size, deferred);
          if containsChunk then Chunk(cfg, web, h, r, env)
          else if !deferred && size == 0 then Some(FinishUpload(cfg, h, r).0)
          else Some(r))
      case Patch(_, _, _, _, env) =>
        if store.None? || store.value.info.None? then store
        else
          match Admitted(web, store.value, req)
          case None => store
          case Some((h, r)) => Chunk(cfg, web, h, r, env)
  }

  /** S3's answers are those the request's outside says it got. */
  predicate Consistent(cfg: Config, web: Web.Config, store: Option<Remote>, req: Web.Request, id: Web.Id)
    requires cfg.Valid()
  {
    req.id == id ==>
      && (req.Post? && req.containsChunk ==>
            match NewLength(web, req)
            case None => true
            case Some((size, deferred)) => Answered(cfg, web, NewHandle(size, deferred), NewRemote(size, deferred), req.env))
      && (req.Patch? && store.Some? && store.value.info.Some? ==>
            match Admitted(web, store.value, req)
            case None => true
            case Some((h, r)) => Answered(cfg, web, h, r, req.env))
  }

  // ------------------------------------------------------------- the refinement

  /** S3 keeps exactly this upload: unfinished in parts and `.part` object, or as the finished object. */
  ghost predicate Keeps(cfg: Config, r: Remote, u: Web.Upload) {
    && r.info.Some? && r.info.value.size == u.info.size && r.info.value.deferred == u.info.deferred
    && Fits(cfg, u.info.size) && !u.info.isFinal
    && (if r.table.Some? then Wf(cfg, r) && Content(r) == u.content
        else u.Complete() && r.finished == Some(u.content))
  }

  /** S3 and the handler's model agree on the upload, and it is finished in one exactly if in the other. */
  ghost predicate Agrees(cfg: Config, s: Web.Server, id: Web.Id, store: Option<Remote>) {
    && (id in s.uploads <==> store.Some?)
    && (store.Some? ==>
          && Keeps(cfg, store.value, s.uploads[id])
          && (store.value.table.None? <==> Runs.FinishCalls(s.log, id) > 0))
  }

  lemma FetchAgrees(cfg: Config, r: Remote, u: Web.Upload)
    requires Keeps(cfg, r, u)
    ensures Fetch(r).Ok? && Fetch(r).value.info == Some(Info(u.info.size, u.info.deferred, |u.content|))
  {
    hide SortedKeys, Gather, AllParts, Wf, Fits;
    if r.table.Some? {
      FetchOffset(r);
    }
  }

  /** One WriteChunk and what follows it, on a handle that knows what S3 has. */
  lemma ChunkAgrees(cfg: Config, web: Web.Config, s: Web.Server, id: Web.Id, h: Handle, r: Remote, env: Web.Env)
    requires cfg.Valid() && id in s.uploads && env.written <= |env.got|
    requires Runs.UploadOk(web, s.uploads[id]) && Runs.FinishCalls(s.log, id) == 0
    requires Keeps(cfg, r, s.uploads[id]) && r.table.Some? && h.info.Some? && Synced(h, r)
    requires Web.Arrives(Web.BodyLimit(web, s.uploads[id].info, |s.uploads[id].content|, env.contentLength), env)
    requires Answered(cfg, web, h, r, env)
    ensures Agrees(cfg, Web.WriteChunk(web, s, id, env).0, id, Chunk(cfg, web, h, r, env))
  {
    hide SortedKeys, Gather, AllParts, Contiguous, WriteChunk, FinishUpload, Web.WriteChunk, Runs.FinishCalls,
      Runs.Emissions, Runs.Extends, Fits, Web.Arrives, Web.BodyLimit, Content;
    var u := s.uploads[id];
    FetchAgrees(cfg, r, u);
    Runs.WriteChunkEffect(web, s, id, env);
    if !Refused(h, env) {
      BodyFits(web, u, env);
      var out := WriteChunk(cfg, h, r, |u.content|, env.got);
      WriteChunkAppends(cfg, h, r, env.got);
      assert env.got[..env.written] == env.got;
      if Reached(h, out) {
        FetchOffset(out.remote);
        FinishAssembles(cfg, out.handle, out.remote);
      }
    }
  }

  lemma BodyFits(web: Web.Config, u: Web.Upload, env: Web.Env)
    requires Runs.UploadOk(web, u) && env.written <= |env.got|
    requires Web.Arrives(Web.BodyLimit(web, u.info, |u.content|, env.contentLength), env)
    ensures !u.info.deferred && |u.content| + env.contentLength <= u.info.size ==> |u.content| + |env.got| <= u.info.size
  {
    if !u.info.deferred && |u.content| + env.contentLength <= u.info.size {
      Runs.ChunkFits(web, u, env.(written := |env.got|));
    }
  }

  lemma PatchAgrees(cfg: Config, web: Web.Config, s: Web.Server, req: Web.Request, store: Option<Remote>)
    requires cfg.Valid() && Runs.Inv(web, s) && Web.Possible(web, s, req) && req.Patch?
    requires Agrees(cfg, s, req.id, store) && Consistent(cfg, web, store, req, req.id)
    requires req.length.Value? && req.length.n >= 0 ==> Fits(cfg, req.length.n)
    ensures Agrees(cfg, Web.PatchFile(web, s, req).0, req.id, Serve(cfg, web, store, req, req.id))
  {
    hide Fits, Web.WriteChunk, Runs.FinishCalls, Runs.Emissions, Wf, Content, Web.Arrives, Web.BodyLimit, Chunk, Answered, Fetch, DeclareLength;
    if req.id in s.uploads {
      var u, r := s.uploads[req.id], store.value;
      assert Runs.IdOk(web, s, req.id);
      FetchAgrees(cfg, r, u);
      var d := Web.DeclareLength(web, u, req.length);
      if Admitted(web, r, req).Some? {
        var (h1, r1) := Admitted(web, r, req).value;
        assert d.Ok? && !u.Complete() && r.table.Some?;
        var u1 := u.(info := d.value);
        var s1 := s.(uploads := s.uploads[req.id := u1]);
        DeclaredAgrees(cfg, web, r, u, req);
        ChunkAgrees(cfg, web, s1, req.id, h1, r1, req.env);
      }
    }
  }

  /** Declaring the length in S3 and in the handler's model. */
  lemma DeclaredAgrees(cfg: Config, web: Web.Config, r: Remote, u: Web.Upload, req: Web.Request)
    requires cfg.Valid() && Keeps(cfg, r, u) && Runs.UploadOk(web, u) && !u.Complete()
    requires req.Patch? && Admitted(web, r, req).Some? && Web.DeclareLength(web, u, req.length).Ok?
    requires req.length.Value? && req.length.n >= 0 ==> Fits(cfg, req.length.n)
    ensures var (h1, r1) := Admitted(web, r, req).value;
            var u1 := u.(info := Web.DeclareLength(web, u, req.length).value);
            && Keeps(cfg, r1, u1) && Runs.UploadOk(web, u1)
            && r1.table.Some? && h1.info.Some? && Synced(h1, r1)
  {
    hide SortedKeys, Gather, AllParts, Contiguous, Fits;
    FetchOffset(r);
    if !req.length.Absent? {
      FetchOffset(DeclareLength(Fetch(r).value, r, req.length.n).remote);
    }
  }

  /** A PATCH that the handler lets through to the store meets the store's demands, except that
      nobody has checked whether a declared length fits. */
  lemma AdmittedIsAllowed(cfg: Config, web: Web.Config, s: Web.Server, req: Web.Request, r: Remote)
    requires cfg.Valid() && Runs.Inv(web, s) && Web.Possible(web, s, req) && req.Patch? && req.id in s.uploads
    requires Keeps(cfg, r, s.uploads[req.id]) && r.table.Some? && Admitted(web, r, req).Some?
    requires !Refused(Admitted(web, r, req).value.0, req.env)
    requires req.length.Value? && req.length.n >= 0 ==> Fits(cfg, req.length.n)
    ensures Allowed(cfg, r, Patch(if req.length.Value? && req.length.n >= 0 then Some(req.length.n) else None, req.env.got))
  {
    hide Fits, Wf, Web.Arrives, Web.BodyLimit, Fetch, Runs.FinishCalls, Runs.Emissions;
    var u := s.uploads[req.id];
    assert Runs.IdOk(web, s, req.id);
    FetchAgrees(cfg, r, u);
    var u1 := u.(info := Web.DeclareLength(web, u, req.length).value);
    BodyFits(web, u1, req.env);
  }

  lemma NewAgrees(cfg: Config, size: nat, deferred: bool, info: Web.Info)
    requires cfg.Valid() && Fits(cfg, size) && info.size == size && info.deferred == deferred && !info.isFinal
    ensures Keeps(cfg, NewRemote(size, deferred), Web.Upload(info, []))
    ensures Synced(NewHandle(size, deferred), NewRemote(size, deferred))
  {
    FetchOffset(NewRemote(size, deferred));
  }

  lemma PostAgrees(cfg: Config, web: Web.Config, s: Web.Server, req: Web.Request, store: Option<Remote>)
    requires cfg.Valid() && Runs.Inv(web, s) && Web.Possible(web, s, req) && req.Post? && !req.concat.FinalUpload?
    requires Agrees(cfg, s, req.id, store) && Consistent(cfg, web, store, req, req.id)
    requires req.length.Value? && req.length.n >= 0 ==> Fits(cfg, req.length.n)
    ensures Agrees(cfg, Web.PostFile(web, s, req).0, req.id, Serve(cfg, web, store, req, req.id))
  {
    hide Fits, Web.WriteChunk, Runs.FinishCalls, Runs.Emissions, Wf, Content, Web.Arrives, Web.BodyLimit, Chunk, Answered,
      Fetch, FinishUpload, Web.FinishIfComplete, Runs.Extends;
    assert Runs.IdOk(web, s, req.id);
    if NewLength(web, req).Some? {
      var (size, deferred) := NewLength(web, req).value;
      assert Fits(cfg, size) by { NothingFits(cfg); }
      var partial := web.usesConcater && req.concat.PartialUpload?;
      var info := Web.Info(size, deferred, partial, false, []);
      var s1 := Web.NewUpload(s, req.id, info);
      var h, r := NewHandle(size, deferred), NewRemote(size, deferred);
      NewAgrees(cfg, size, deferred, info);
      Runs.LimitIgnoresKind(web, info, 0, req.env.contentLength);
      if req.containsChunk {
        ChunkAgrees(cfg, web, s1, req.id, h, r, req.env);
      } else if !deferred && size == 0 {
        FinishEmpty(cfg, web, s1, req.id, h, r, req.env);
      }
    }
  }

  lemma NothingFits(cfg: Config)
    ensures Fits(cfg, 0)
  {
    assert cfg.maxPart * cfg.maxParts >= 0;
  }

  lemma FinishEmpty(cfg: Config, web: Web.Config, s: Web.Server, id: Web.Id, h: Handle, r: Remote, env: Web.Env)
    requires cfg.Valid() && id in s.uploads && Keeps(cfg, r, s.uploads[id]) && Runs.FinishCalls(s.log, id) == 0
    requires h == NewHandle(0, false) && r == NewRemote(0, false) && s.uploads[id].content == []
    ensures Agrees(cfg, Web.FinishIfComplete(s, id, s.uploads[id].info, [], env).0, id, Some(FinishUpload(cfg, h, r).0))
  {
    hide Runs.FinishCalls, Runs.Emissions, Web.FinishIfComplete, Runs.Extends, FinishUpload;
    Runs.FinishExtends(s, id, s.uploads[id].info, [], env);
    FetchOffset(r);
    FinishAssembles(cfg, h, r);
  }

  lemma StepAgrees(cfg: Config, web: Web.Config, file: bytes, s: Web.Server, req: Web.Request, id: Web.Id, store: Option<Remote>)
    requires cfg.Valid() && Runs.Inv(web, s) && Web.Possible(web, s, req) && Fits(cfg, |file|)
    requires Resume.Honest(web, file, id, req)
    requires Agrees(cfg, s, id, store) && Consistent(cfg, web, store, req, id)
    ensures Agrees(cfg, Web.Serve(web, s, req).0, id, Serve(cfg, web, store, req, id))
  {
    hide Fits, Web.PostFile, Web.PatchFile, Runs.FinishCalls, Runs.Emissions, Keeps, Web.Arrives, Web.BodyLimit, Consistent, Admitted, NewLength;
    match req
    case Post(_, _, _, _, _, _) =>
      if req.id == id {
        PostAgrees(cfg, web, s, req, store);
      } else {
        Runs.PostExtends(web, s, req);
      }
    case Patch(_, _, _, _, _) =>
      if req.id == id {
        PatchAgrees(cfg, web, s, req, store);
      } else {
        Resume.PatchExtends(web, s, req);
      }
    case Delete(other, _) => Runs.TerminateExtends(s, other);
    case HeadOf(_) =>
  }

  // -------------------------------------------------------------- the theorem

  /** A run of the server together with what S3 keeps for one upload. */
  ghost predicate IsRun(
    cfg: Config, web: Web.Config, id: Web.Id, states: seq<Web.Server>, stores: seq<Option<Remote>>, reqs: seq<Web.Request>)
    requires cfg.Valid()
  {
    && Runs.IsRun(web, states, reqs)
    && |stores| == |states| && stores[0] == None
    && (forall k :: 0 <= k < |reqs| ==>
                      && Consistent(cfg, web, stores[k], reqs[k], id)
                      && stores[k + 1] == Serve(cfg, web, stores[k], reqs[k], id))
  }

  lemma {:induction false} RunAgrees(
    cfg: Config, web: Web.Config, file: bytes, id: Web.Id,
    states: seq<Web.Server>, stores: seq<Option<Remote>>, reqs: seq<Web.Request>, i: nat)
    requires cfg.Valid() && Fits(cfg, |file|) && IsRun(cfg, web, id, states, stores, reqs) && i < |states|
    requires forall k :: 0 <= k < |reqs| ==> Resume.Honest(web, file, id, reqs[k])
    ensures Agrees(cfg, states[i], id, stores[i])
  {
    hide Fits, Web.Possible, Web.Serve, Resume.Honest, Serve, Consistent, Keeps;
    if i > 0 {
      RunAgrees(cfg, web, file, id, states, stores, reqs, i - 1);
      Runs.RunKeepsInv(web, states, reqs, i - 1);
      StepAgrees(cfg, web, file, states[i - 1], reqs[i - 1], id, stores[i - 1]);
    }
  }

  /**
   * End to end: clients send a file to the handler on the S3 store, in any number of requests
   * that may be repeated, stale or cut off anywhere. In every state the offset that HEAD
   * reports is the one rebuilt from S3's part list, it reports a length exactly if S3's info
   * object has one, and that is the file's; the parts and the `.part` object hold exactly that
   * prefix of the file, and an upload that has been finished is the file as one
   * object, which it is exactly if FinishUpload has been called.
   */
  lemma EndToEnd(
    cfg: Config, web: Web.Config, file: bytes, id: Web.Id,
    states: seq<Web.Server>, stores: seq<Option<Remote>>, reqs: seq<Web.Request>, i: nat)
    requires cfg.Valid() && Fits(cfg, |file|) && IsRun(cfg, web, id, states, stores, reqs) && i < |states|
    requires forall k :: 0 <= k < |reqs| ==> Resume.Honest(web, file, id, reqs[k])
    ensures stores[i].Some? <==> Web.HeadFile(states[i], id).Head?
    ensures stores[i].Some? ==>
              var r, offset := stores[i].value, Web.HeadFile(states[i], id).offset;
              && Fetch(r).Ok? && Fetch(r).value.info.value.offset == offset <= |file|
              && var info, length := Fetch(r).value.info.value, Web.HeadFile(states[i], id).length;
              && (length.Some? <==> !info.deferred)
              && (length.Some? ==> length.value == info.size == |file|)
              && (r.table.Some? ==> Content(r) == file[..offset])
              && (r.table.None? ==> r.finished == Some(file))
              && (r.table.None? <==> Runs.FinishCalls(states[i].log, id) > 0)
  {
    hide Fits, Web.Possible, Web.Serve, Resume.Honest, Serve, Consistent, Wf, Content, Fetch, Runs.FinishCalls;
    RunAgrees(cfg, web, file, id, states, stores, reqs, i);
    Resume.ResumeCorrect(web, file, id, states, reqs, i);
    if stores[i].Some? {
      FetchAgrees(cfg, stores[i].value, states[i].uploads[id]);
    }
  }

  /** S3 takes every byte of a chunk that the handler lets through. */
  lemma ChunkTakesAll(cfg: Config, web: Web.Config, u: Web.Upload, h: Handle, r: Remote, env: Web.Env)
    requires cfg.Valid() && Runs.UploadOk(web, u) && env.written <= |env.got|
    requires Keeps(cfg, r, u) && r.table.Some? && h.info.Some? && Synced(h, r)
    requires Web.Arrives(Web.BodyLimit(web, u.info, |u.content|, env.contentLength), env)
    requires Answered(cfg, web, h, r, env) && !Refused(h, env)
    ensures env.written == |env.got|
  {
    hide SortedKeys, Gather, AllParts, Contiguous, WriteChunk, FinishUpload, Fits, Web.Arrives, Web.BodyLimit, Content;
    FetchAgrees(cfg, r, u);
    BodyFits(web, u, env);
    WriteChunkAppends(cfg, h, r, env.got);
  }

  /** And if that completes the upload, S3 finishes it. */
  lemma ChunkFinishes(cfg: Config, web: Web.Config, u: Web.Upload, h: Handle, r: Remote, env: Web.Env)
    requires cfg.Valid() && Runs.UploadOk(web, u) && env.written <= |env.got|
    requires Keeps(cfg, r, u) && r.table.Some? && h.info.Some? && Synced(h, r)
    requires Web.Arrives(Web.BodyLimit(web, u.info, |u.content|, env.contentLength), env)
    requires Answered(cfg, web, h, r, env) && !Refused(h, env) && !Stopped(web, env)
    ensures Answers.Appended(u, env).Complete() ==> env.finishOk
  {
    hide SortedKeys, Gather, AllParts, Contiguous, WriteChunk, FinishUpload, Fits, Web.Arrives, Web.BodyLimit, Content;
    FetchAgrees(cfg, r, u);
    BodyFits(web, u, env);
    WriteChunkAppends(cfg, h, r, env.got);
    var out := WriteChunk(cfg, h, r, |u.content|, env.got);
    FetchOffset(out.remote);
    FinishAssembles(cfg, out.handle, out.remote);
  }

  function WithEnv(req: Web.Request, env: Web.Env): Web.Request {
    match req
    case Post(id, concat, length, defer, containsChunk, _) => Web.Post(id, concat, length, defer, containsChunk, env)
    case Patch(id, contentTypeOk, offset, length, _) => Web.Patch(id, contentTypeOk, offset, length, env)
    case _ => req
  }

  /** For every request, whatever its body brings, S3 has an answer: no run gets stuck. */
  lemma OutsideExists(cfg: Config, web: Web.Config, store: Option<Remote>, req: Web.Request, id: Web.Id) returns (env: Web.Env)
    requires cfg.Valid() && (req.Post? || req.Patch?)
    ensures env == req.env.(written := env.written, finishOk := env.finishOk) && env.written <= |env.got|
    ensures Consistent(cfg, web, store, WithEnv(req, env), id)
  {
    hide WriteChunk, FinishUpload, Fetch, DeclareLength, Answered;
    env := req.env.(written := 0);
    if req.Post? {
      if NewLength(web, req).Some? {
        var (size, deferred) := NewLength(web, req).value;
        env := AnswerFor(cfg, web, NewHandle(size, deferred), NewRemote(size, deferred), req.env);
      }
    } else if store.Some? && store.value.info.Some? && Admitted(web, store.value, req).Some? {
      var (h, r) := Admitted(web, store.value, req).value;
      AdmittedHandle(web, store.value, req);
      env := AnswerFor(cfg, web, h, r, req.env);
    }
  }

  lemma AdmittedHandle(web: Web.Config, r: Remote, req: Web.Request)
    requires r.info.Some? && req.Patch? && Admitted(web, r, req).Some?
    ensures var (h, r') := Admitted(web, r, req).value;
            h.info.Some? && h.incomplete == |TailOf(r')|
  {
    hide AllParts, SumSizes;
  }

  lemma AnswerFor(cfg: Config, web: Web.Config, h: Handle, r: Remote, env: Web.Env) returns (env': Web.Env)
    requires cfg.Valid() && h.info.Some? && h.incomplete == |TailOf(r)|
    ensures env' == env.(written := env'.written, finishOk := env'.finishOk) && env'.written <= |env.got|
    ensures Answered(cfg, web, h, r, env')
  {
    hide FinishUpload, PutAll, Cut, CalcOptimalPartSize;
    var out := WriteChunk(cfg, h, r, h.info.value.offset, env.got);
    env' := env.(written := Count(out), finishOk := FinishUpload(cfg, out.handle, out.remote).1.Ok?);
    var p := Start(h, r.(tail := if h.incomplete > 0 then None else r.tail));
    var stream, base := TailOf(r) + env.got, h.info.value.offset - h.incomplete;
    assert h.incomplete == 0 ==> stream == env.got;
    OptimalPartSize(cfg, h.info.value.size);
    if CalcOptimalPartSize(cfg, h.info.value.size).Ok? {
      var partSize := CalcOptimalPartSize(cfg, h.info.value.size).value;
      CutPieces(stream, partSize);
      UploadsAll(cfg, h.info.value, base, p, Cut(stream, partSize));
    }
  }

  lemma {:induction false} UploadsAll(cfg: Config, info: Info, base: int, p: Progress, chunks: seq<bytes>)
    ensures PutAll(cfg, info, base, p, chunks).uploaded == p.uploaded + |Flatten(chunks)|
    decreases chunks
  {
    if chunks != [] {
      UploadsAll(cfg, info, base, PutChunk(cfg, info, base, p, chunks[0]), chunks[1..]);
    }
  }

  /** And it arrives: a client that asks for the offset of an unfinished upload and sends the
      rest of its file without interruption has its file as one finished object. */
  lemma UninterruptedFinishes(
    cfg: Config, web: Web.Config, file: bytes, s: Web.Server, req: Web.Request, store: Option<Remote>)
    requires cfg.Valid() && Fits(cfg, |file|) && Runs.Inv(web, s) && Web.Possible(web, s, req) && req.Patch?
    requires Resume.Faithful(file, s, req.id) && Agrees(cfg, s, req.id, store) && Consistent(cfg, web, store, req, req.id)
    requires req.id in s.uploads && !s.uploads[req.id].info.deferred && !s.uploads[req.id].Complete()
    requires req.contentTypeOk && req.length.Absent? && req.offset == Web.Value(|s.uploads[req.id].content|)
    requires req.env.body == BodyReader.Body(file[|s.uploads[req.id].content|..], true) && req.env.bodyErr.None?
    ensures var store' := Serve(cfg, web, store, req, req.id);
            && store'.Some? && store'.value.table.None? && store'.value.finished == Some(file)
            && (req.env.hookOk ==> Web.PatchFile(web, s, req).1 == Web.NoContent(|file|))
  {
    hide Fits, Wf, Content, Fetch, Runs.FinishCalls, Runs.Emissions, Web.WriteChunk, Chunk, Answered, Runs.Extends;
    var id, u := req.id, s.uploads[req.id];
    assert Runs.IdOk(web, s, id);
    FetchAgrees(cfg, store.value, u);
    var (h, r) := Admitted(web, store.value, req).value;
    DeclaredAgrees(cfg, web, store.value, u, req);
    ChunkTakesAll(cfg, web, u, h, r, req.env);
    ChunkFinishes(cfg, web, u, h, r, req.env);
    Answers.PatchAnswer(web, s, req);
    PatchAgrees(cfg, web, s, req, store);
    assert s.(uploads := s.uploads[id := u]) == s;
    Runs.WriteChunkEffect(web, s, id, req.env);
    Resume.UninterruptedPatchCompletes(web, file, s, req);
  }
}
