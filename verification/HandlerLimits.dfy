/** Where the handler's promises end: stranded uploads, and deferred uploads beyond the limit. */
module HandlerLimits {
  import opened Streams
  import BodyReader
  import opened HandlerSpec
  import opened HandlerTheorems
  import HandlerResume

  /** An ordinary upload that has all its bytes although the store was never told to finish it. */
  ghost predicate Stranded(s: Server, id: Id) {
    id in s.uploads && !s.uploads[id].info.isFinal && s.uploads[id].Complete() && FinishCalls(s.log, id) == 0
  }

  /** A PATCH that declares exactly the length already stored but announces more bytes. */
  predicate StrandingPatch(cfg: Config, s: Server, req: Request) {
    && req.Patch? && req.id in s.uploads && req.contentTypeOk
    && var u := s.uploads[req.id];
       && !u.info.isFinal && u.info.deferred && cfg.usesDeferrer
       && req.offset == Value(|u.content|) && req.length == Value(|u.content|)
       && (cfg.maxSize > 0 ==> |u.content| <= cfg.maxSize)
       && req.env.contentLength > 0
  }

  /** A POST that creates an empty upload but announces a chunk with bytes. */
  predicate StrandingPost(cfg: Config, req: Request) {
    && req.Post? && req.containsChunk && req.env.contentLength > 0 && req.env.createOk
    && ValidateLength(cfg, req.length, req.defer) == Ok((0, false))
    && var concat := if cfg.usesConcater then req.concat else NoConcat;
       concat.NoConcat? || (concat.PartialUpload? && !cfg.disableConcat)
  }

  /**
   * A request makes an upload complete without finishing it if and only if it declares the
   * length that is already there while announcing further bytes: the size check then refuses
   * the chunk before the completion check is reached.
   */
  lemma StrandedExactly(cfg: Config, s: Server, req: Request, id: Id)
    requires Inv(cfg, s) && Possible(cfg, s, req) && !Stranded(s, id)
    ensures Stranded(Serve(cfg, s, req).0, id) <==>
            req.id == id && (StrandingPatch(cfg, s, req) || StrandingPost(cfg, req))
  {
    hide FinishCalls, Emissions, Arrives, BodyLimit, PostFile, PatchFile, Terminate;
    assert IdOk(cfg, s, id);
    match req
    case Post(_, _, _, _, _, _) => PostStrands(cfg, s, req, id);
    case Patch(_, _, _, _, _) =>
      if req.id == id {
        PatchStrands(cfg, s, req);
      } else {
        HandlerResume.PatchExtends(cfg, s, req);
      }
    case Delete(other, _) => TerminateExtends(s, other);
    case HeadOf(_) =>
  }

  lemma PatchStrands(cfg: Config, s: Server, req: Request)
    requires Inv(cfg, s) && req.Patch? && req.env.written <= |req.env.got| && !Stranded(s, req.id)
    ensures Stranded(PatchFile(cfg, s, req).0, req.id) <==> StrandingPatch(cfg, s, req)
  {
    hide FinishCalls, Emissions, WriteChunk, Extends;
    assert IdOk(cfg, s, req.id);
    if req.id in s.uploads {
      var u := s.uploads[req.id];
      var d := DeclareLength(cfg, u, req.length);
      if d.Ok? {
        WriteChunkEffect(cfg, s.(uploads := s.uploads[req.id := u.(info := d.value)]), req.id, req.env);
      }
    }
  }

  lemma PostStrands(cfg: Config, s: Server, req: Request, id: Id)
    requires Inv(cfg, s) && Possible(cfg, s, req) && req.Post? && !Stranded(s, id)
    ensures Stranded(PostFile(cfg, s, req).0, id) <==> req.id == id && StrandingPost(cfg, req)
  {
    hide FinishCalls, Emissions, PostPlain, Concatenate, PostFinal, Arrives, BodyLimit;
    PostExtends(cfg, s, req);
    assert IdOk(cfg, s, req.id);
    if req.id == id {
      var concat := if cfg.usesConcater then req.concat else NoConcat;
      if concat.FinalUpload? {
        var content := Concatenate(s, concat.ids);
        if content.Ok? {
          FinalNotStranded(cfg, s, req, concat.ids, content.value);
        }
      } else {
        var v := ValidateLength(cfg, req.length, req.defer);
        if v.Ok? {
          PlainStrands(cfg, s, req, Info(v.value.0, v.value.1, concat.PartialUpload?, false, []));
        }
      }
    }
  }

  lemma PlainStrands(cfg: Config, s: Server, req: Request, info: Info)
    requires Inv(cfg, s) && req.Post? && req.id !in s.created && req.env.written <= |req.env.got| && !info.isFinal
    ensures Stranded(PostPlain(cfg, s, req, info).0, req.id) <==>
            req.containsChunk && !info.deferred && info.size == 0 && req.env.contentLength > 0
  {
    hide FinishCalls, Emissions, WriteChunk, FinishIfComplete, Extends;
    assert IdOk(cfg, s, req.id);
    var s1 := NewUpload(s, req.id, info);
    WriteChunkEffect(cfg, s1, req.id, req.env);
    FinishExtends(s1, req.id, info, [], req.env);
  }

  lemma FinalNotStranded(cfg: Config, s: Server, req: Request, ids: seq<Id>, content: bytes)
    requires Inv(cfg, s) && req.Post? && req.id !in s.created
    ensures !Stranded(PostFinal(cfg, s, req, ids, content).0, req.id)
  {
    hide FinishCalls, Emissions, FinishIfComplete;
    assert IdOk(cfg, s, req.id);
    var info := Info(|content|, false, false, true, ids);
    var s2 := NewUpload(s, req.id, info).(uploads := s.uploads[req.id := Upload(info, [])][req.id := Upload(info, content)]);
    var s3 := s2.(log := s2.log + [Emitted(req.id)]);
    FinishExtends(s3, req.id, info, content, req.env);
  }

  /** A stranded upload stays stranded under every request except its deletion. */
  lemma StrandedForever(cfg: Config, s: Server, req: Request, id: Id)
    requires Inv(cfg, s) && Possible(cfg, s, req) && Stranded(s, id)
    ensures Stranded(Serve(cfg, s, req).0, id) <==> !(req == Delete(id, true) && cfg.usesTerminater)
  {
    hide FinishCalls, Emissions, Arrives, BodyLimit, Terminate, WriteChunk;
    assert IdOk(cfg, s, id);
    match req
    case Post(_, _, _, _, _, _) => PostExtends(cfg, s, req);
    case Patch(_, _, _, _, _) =>
      if req.id != id {
        HandlerResume.PatchExtends(cfg, s, req);
      }
    case Delete(other, _) => TerminateExtends(s, other);
    case HeadOf(_) =>
  }

  /** Two requests that strand an upload: a deferred creation with five bytes, and a PATCH that
      declares five bytes with a sixth announced. */
  lemma StrandedExample()
    ensures var cfg := Config(0, true, false, false, false);
            var id := "u";
            var env5 := Env(5, BodyReader.Body([1, 2, 3, 4, 5], true), [1, 2, 3, 4, 5], None, 5, true, true, true, true);
            var env1 := Env(1, BodyReader.Body([6], true), [6], None, 1, true, true, true, true);
            var post := Post(id, NoConcat, Absent, DeferOne, true, env5);
            var patch := Patch(id, true, Value(5), Value(5), env1);
            var s1 := PostFile(cfg, EMPTY, post).0;
            var (s2, resp) := PatchFile(cfg, s1, patch);
            && Possible(cfg, EMPTY, post) && Possible(cfg, s1, patch)
            && resp == Failed(TooMuch) && Stranded(s2, id)
  {
    var cfg := Config(0, true, false, false, false);
    var env5 := Env(5, BodyReader.Body([1, 2, 3, 4, 5], true), [1, 2, 3, 4, 5], None, 5, true, true, true, true);
    var s0 := NewUpload(EMPTY, "u", Info(0, true, false, false, []));
    assert s0.log == [] && FinishCalls(s0.log, "u") == 0;
    WriteChunkEffect(cfg, s0, "u", env5);
    assert env5.got[..5] == [1, 2, 3, 4, 5];
  }

  // ------------------------------------------------- deferred uploads and MaxSize

  /** The upload of this id holds more than the maximum size. */
  predicate Beyond(cfg: Config, s: Server, id: Id) {
    id in s.uploads && |s.uploads[id].content| > cfg.maxSize
  }

  /** With this outside, which announces the same length, the request goes beyond the limit. */
  ghost predicate GoesBeyond(cfg: Config, s: Server, req: Request, env: Env)
    requires req.Patch? || req.Post?
  {
    && env.contentLength == req.env.contentLength && Possible(cfg, s, req.(env := env))
    && Beyond(cfg, Serve(cfg, s, req.(env := env)).0, req.id)
  }

  /**
   * With a limit set, a PATCH can take a deferred upload beyond the limit if and only if it
   * announces more bytes than are left of it: the announced length replaces the limit. An
   * unannounced body is always held back.
   */
  lemma DeferredLimitExactly(cfg: Config, s: Server, req: Request)
    requires cfg.maxSize > 0 && req.Patch? && req.contentTypeOk && req.length.Absent?
    requires req.id in s.uploads && s.uploads[req.id].info.deferred && !s.uploads[req.id].info.isFinal
    requires |s.uploads[req.id].content| <= cfg.maxSize && req.offset == Value(|s.uploads[req.id].content|)
    ensures (exists env :: GoesBeyond(cfg, s, req, env)) <==>
            req.env.contentLength > cfg.maxSize - |s.uploads[req.id].content|
  {
    hide FinishCalls, Emissions, WriteChunk, Extends;
    var u, announced := s.uploads[req.id], req.env.contentLength;
    assert s.(uploads := s.uploads[req.id := u]) == s;
    if announced > cfg.maxSize - |u.content| {
      var env := WholeBody(announced);
      WriteChunkEffect(cfg, s, req.id, env);
      assert GoesBeyond(cfg, s, req, env);
    }
    forall env | GoesBeyond(cfg, s, req, env) ensures announced > cfg.maxSize - |u.content| {
      WriteChunkEffect(cfg, s, req.id, env);
    }
  }

  // ------------------------------------------------------ how much can be stored

  /** With this outside, which announces the same length, the request stores exactly n more bytes. */
  ghost predicate Stores(cfg: Config, s: Server, req: Request, env: Env, n: nat)
    requires req.Patch? && req.id in s.uploads
  {
    var req' := Patch(req.id, req.contentTypeOk, req.offset, req.length, env);
    && env.contentLength == req.env.contentLength && Possible(cfg, s, req')
    && var s' := PatchFile(cfg, s, req').0;
       req.id in s'.uploads && |s'.uploads[req.id].content| == |s.uploads[req.id].content| + n
  }

  /** What an announced length leaves room for: a declared length, or else the maximum size, but the
      latter only if nothing was announced. */
  predicate RoomFor(cfg: Config, u: Upload, announced: int, n: nat) {
    && (announced >= 0 ==> n <= announced)
    && (!u.info.deferred ==> |u.content| + n <= u.info.size && |u.content| + announced <= u.info.size)
    && (u.info.deferred && cfg.maxSize > 0 && announced <= 0 ==> |u.content| + n <= cfg.maxSize)
  }

  /** A client that sends n bytes and is cut off if it announced more. */
  function CutBody(announced: int, n: nat): (env: Env)
    ensures |env.got| == env.written == n && env.got[..n] == env.got
  {
    var data: bytes := seq(n, i => 0);
    var ends := announced < 0 || announced == n;
    Env(announced, BodyReader.Body(data, ends), data, if ends then None else Some(BodyReader.UnexpectedEOF), n, true, true, true, true)
  }

  /** A PATCH that names the offset of an incomplete upload can store exactly the numbers of bytes
      there is room for, and no others, whatever becomes of its body. */
  lemma StorableExactly(cfg: Config, s: Server, req: Request, n: nat)
    requires req.Patch? && req.contentTypeOk && req.length.Absent? && req.id in s.uploads && n > 0
    requires !s.uploads[req.id].info.isFinal && !s.uploads[req.id].Complete()
    requires UploadOk(cfg, s.uploads[req.id]) && req.offset == Value(|s.uploads[req.id].content|)
    requires s.uploads[req.id].info.deferred && cfg.maxSize > 0 ==> |s.uploads[req.id].content| <= cfg.maxSize
    ensures (exists env :: Stores(cfg, s, req, env, n)) <==> RoomFor(cfg, s.uploads[req.id], req.env.contentLength, n)
  {
    hide FinishCalls, Emissions, WriteChunk, Extends;
    var u, announced := s.uploads[req.id], req.env.contentLength;
    assert s.(uploads := s.uploads[req.id := u]) == s;
    if RoomFor(cfg, u, announced, n) {
      var env := CutBody(announced, n);
      WriteChunkEffect(cfg, s, req.id, env);
      assert Stores(cfg, s, req, env, n);
    }
    forall env | Stores(cfg, s, req, env, n) ensures RoomFor(cfg, u, announced, n) {
      WriteChunkEffect(cfg, s, req.id, env);
    }
  }

  /** The same for a POST that creates a deferred upload with its first chunk. */
  lemma DeferredPostLimitExactly(cfg: Config, s: Server, req: Request)
    requires cfg.maxSize > 0 && req.Post? && req.containsChunk && req.id !in s.created && req.id !in s.uploads
    requires ValidateLength(cfg, req.length, req.defer) == Ok((0, true)) && req.concat.NoConcat?
    ensures (exists env :: GoesBeyond(cfg, s, req, env)) <==> req.env.contentLength > cfg.maxSize
  {
    hide FinishCalls, Emissions, WriteChunk, Extends;
    var announced := req.env.contentLength;
    var s1 := NewUpload(s, req.id, Info(0, true, false, false, []));
    if announced > cfg.maxSize {
      var env := WholeBody(announced);
      WriteChunkEffect(cfg, s1, req.id, env);
      assert GoesBeyond(cfg, s, req, env);
    }
    forall env | GoesBeyond(cfg, s, req, env) ensures announced > cfg.maxSize {
      WriteChunkEffect(cfg, s1, req.id, env);
    }
  }

  /** A client that sends exactly the bytes it announced, without any failure. */
  function WholeBody(n: nat): (env: Env)
    ensures |env.got| == env.written == n && env.got[..n] == env.got
  {
    var data: bytes := seq(n, i => 0);
    Env(n, BodyReader.Body(data, true), data, None, n, true, true, true, true)
  }

  /** With a limit of three bytes, a deferred upload that is created empty takes four. */
  lemma BeyondLimitExample()
    ensures var cfg := Config(3, true, false, false, false);
            var post := Post("u", NoConcat, Absent, DeferOne, false, WholeBody(0));
            var patch := Patch("u", true, Value(0), Absent, WholeBody(4));
            var s1 := PostFile(cfg, EMPTY, post).0;
            var (s2, resp) := PatchFile(cfg, s1, patch);
            && Possible(cfg, EMPTY, post) && Possible(cfg, s1, patch)
            && resp == NoContent(4) && Beyond(cfg, s2, "u")
  {
    hide FinishCalls, Emissions;
  }

  /** A deferred upload beyond the limit can never be given a length, so it never completes. */
  lemma BeyondLimitNeverCompletes(cfg: Config, s: Server, req: Request, id: Id)
    requires Inv(cfg, s) && Possible(cfg, s, req) && cfg.maxSize > 0
    requires id in s.uploads && s.uploads[id].info.deferred && |s.uploads[id].content| > cfg.maxSize
    ensures var s' := Serve(cfg, s, req).0;
            id in s'.uploads ==> s'.uploads[id].info.deferred && |s'.uploads[id].content| > cfg.maxSize
  {
    hide FinishCalls, Emissions, Arrives, BodyLimit, Terminate, WriteChunk;
    assert IdOk(cfg, s, id);
    match req
    case Post(_, _, _, _, _, _) => PostExtends(cfg, s, req);
    case Patch(_, _, _, _, _) =>
      if req.id != id {
        HandlerResume.PatchExtends(cfg, s, req);
      } else {
        assert s.(uploads := s.uploads[id := s.uploads[id]]) == s;
        WriteChunkEffect(cfg, s, id, req.env);
      }
    case Delete(other, _) => TerminateExtends(s, other);
    case HeadOf(_) =>
  }
}
