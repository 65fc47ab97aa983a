/** Resuming: whatever clients retry, repeat or interrupt, a file arrives as that file. */
module HandlerResume {
  import opened Streams
  import BodyReader
  import opened HandlerSpec
  import opened HandlerTheorems

  /** A client that may retry, repeat stale requests and be cut off anywhere, but always sends
      bytes of its file from the offset it names, and announces the file's length if any. */
  ghost predicate Honest(cfg: Config, file: bytes, id: Id, req: Request) {
    match req
    case Post(i, concat, length, defer, containsChunk, env) =>
      i == id ==>
        && !concat.FinalUpload?
        && (length.Value? ==> length.n == |file|)
        && (containsChunk ==> env.body.data <= file)
    case Patch(i, _, offset, length, env) =>
      i == id ==>
        && (offset.Value? && 0 <= offset.n <= |file| ==> env.body.data <= file[offset.n..])
        && (length.Value? ==> length.n == |file|)
    case _ => true
  }

  ghost predicate LogOk(file: bytes, log: seq<Event>, id: Id) {
    forall k :: 0 <= k < |log| && log[k].FinishCall? && log[k].id == id ==> log[k].content == file
  }

  /** What is stored is a prefix of the file, and what was finished is the file. */
  ghost predicate Faithful(file: bytes, s: Server, id: Id) {
    && (id in s.uploads ==>
          && s.uploads[id].content <= file
          && (!s.uploads[id].info.deferred ==> s.uploads[id].info.size == |file|))
    && LogOk(file, s.log, id)
  }

  /** The log grows by events of this id only. */
  ghost predicate LogGrows(log: seq<Event>, log': seq<Event>, id: Id) {
    log <= log' && forall k :: |log| <= k < |log'| ==> log'[k].id == id
  }

  lemma FinishFaithful(file: bytes, s: Server, id: Id, info: Info, content: bytes, env: Env)
    ensures LogGrows(s.log, FinishIfComplete(s, id, info, content, env).0.log, id)
    ensures LogOk(file, s.log, id) && (!info.deferred && |content| == info.size ==> content == file) ==>
              LogOk(file, FinishIfComplete(s, id, info, content, env).0.log, id)
  {
  }

  lemma WriteChunkFaithful(cfg: Config, file: bytes, s: Server, id: Id, env: Env)
    requires id in s.uploads && env.written <= |env.got| && Faithful(file, s, id)
    requires env.got <= env.body.data <= file[|s.uploads[id].content|..]
    ensures Faithful(file, WriteChunk(cfg, s, id, env).0, id)
  {
    hide LogOk, FinishIfComplete, LogGrows;
    var u := s.uploads[id];
    var content := u.content + env.got[..env.written];
    assert content <= file by { PrefixGrows(file, u.content, env); }
    var s1 := s.(uploads := s.uploads[id := u.(content := content)]);
    var stopped := env.bodyErr == Some(BodyReader.StoppedByServer) && cfg.usesTerminater;
    var s2 := if stopped then Terminate(s1, id) else s1;
    if stopped {
      TerminatedLogOk(file, s1, id);
    }
    FinishFaithful(file, s2, id, u.info, content, env);
    FinishExtends(s2, id, u.info, content, env);
  }

  lemma TerminatedLogOk(file: bytes, s: Server, id: Id)
    requires LogOk(file, s.log, id)
    ensures LogOk(file, Terminate(s, id).log, id)
  {
  }

  lemma PrefixGrows(file: bytes, content: bytes, env: Env)
    requires content <= file && env.written <= |env.got| && env.got <= env.body.data <= file[|content|..]
    ensures content + env.got[..env.written] <= file
  {
    assert file == content + file[|content|..];
  }

  lemma WriteChunkLog(cfg: Config, s: Server, id: Id, env: Env)
    requires id in s.uploads && env.written <= |env.got|
    ensures LogGrows(s.log, WriteChunk(cfg, s, id, env).0.log, id)
  {
  }

  /** A request about another upload leaves this one alone. */
  lemma OthersFaithful(cfg: Config, file: bytes, s: Server, req: Request, id: Id)
    requires Possible(cfg, s, req) && req.id != id && Faithful(file, s, id)
    ensures Faithful(file, Serve(cfg, s, req).0, id)
  {
    hide Possible, PostFile, PatchFile, LogOk, LogGrows, FinishCalls, Emissions;
    assert req.Post? || req.Patch? ==> req.env.written <= |req.env.got| by { WrittenIsPart(cfg, s, req); }
    var s' := Serve(cfg, s, req).0;
    match req
    case Post(_, _, _, _, _, _) =>
      PostExtends(cfg, s, req);
      PostLog(cfg, s, req);
      LogOkGrows(file, s.log, s'.log, id, req.id);
    case Patch(_, _, _, _, _) =>
      PatchExtends(cfg, s, req);
      LogOkGrows(file, s.log, s'.log, id, req.id);
    case Delete(other, _) =>
      TerminateExtends(s, other);
      assert LogGrows(s.log, Terminate(s, other).log, other) by { TerminateLog(s, other); }
      LogOkGrows(file, s.log, Terminate(s, other).log, id, other);
    case HeadOf(_) =>
  }

  lemma WrittenIsPart(cfg: Config, s: Server, req: Request)
    requires Possible(cfg, s, req)
    ensures req.Post? || req.Patch? ==> req.env.written <= |req.env.got|
  {
  }

  lemma TerminateLog(s: Server, id: Id)
    ensures LogGrows(s.log, Terminate(s, id).log, id)
  {
  }

  lemma LogOkGrows(file: bytes, log: seq<Event>, log': seq<Event>, id: Id, other: Id)
    requires LogOk(file, log, id) && LogGrows(log, log', other) && other != id
    ensures LogOk(file, log', id)
  {
    forall k | 0 <= k < |log'| && log'[k].FinishCall? && log'[k].id == id ensures log'[k].content == file {
      assert k < |log| && log'[k] == log[k];
    }
  }

  lemma PostLog(cfg: Config, s: Server, req: Request)
    requires req.Post? && req.env.written <= |req.env.got|
    ensures LogGrows(s.log, PostFile(cfg, s, req).0.log, req.id)
  {
    hide Concatenate, PostPlain, PostFinal, LogGrows;
    SameLog(s.log, req.id);
    var concat := if cfg.usesConcater then req.concat else NoConcat;
    if concat.FinalUpload? {
      var content := Concatenate(s, concat.ids);
      if content.Ok? {
        PostFinalLog(cfg, s, req, concat.ids, content.value);
      }
    } else {
      var v := ValidateLength(cfg, req.length, req.defer);
      if v.Ok? {
        PostPlainLog(cfg, s, req, Info(v.value.0, v.value.1, concat.PartialUpload?, false, []));
      }
    }
  }

  lemma PostPlainLog(cfg: Config, s: Server, req: Request, info: Info)
    requires req.Post? && req.env.written <= |req.env.got|
    ensures LogGrows(s.log, PostPlain(cfg, s, req, info).0.log, req.id)
  {
    hide WriteChunk;
    WriteChunkLog(cfg, NewUpload(s, req.id, info), req.id, req.env);
  }

  lemma PostFinalLog(cfg: Config, s: Server, req: Request, ids: seq<Id>, content: bytes)
    requires req.Post?
    ensures LogGrows(s.log, PostFinal(cfg, s, req, ids, content).0.log, req.id)
  {
  }

  lemma PatchExtends(cfg: Config, s: Server, req: Request)
    requires req.Patch? && req.env.written <= |req.env.got|
    ensures Extends(s, PatchFile(cfg, s, req).0, req.id)
    ensures LogGrows(s.log, PatchFile(cfg, s, req).0.log, req.id)
  {
    hide FinishCalls, Emissions, WriteChunk, Extends, LogGrows;
    SameExtends(s, req.id);
    SameLog(s.log, req.id);
    if req.id in s.uploads {
      var u := s.uploads[req.id];
      if DeclareLength(cfg, u, req.length).Ok? {
        var s1 := s.(uploads := s.uploads[req.id := u.(info := DeclareLength(cfg, u, req.length).value)]);
        UpdateExtends(s, req.id, s1.uploads[req.id]);
        WriteChunkEffect(cfg, s1, req.id, req.env);
        ExtendsTrans(s, s1, WriteChunk(cfg, s1, req.id, req.env).0, req.id);
        WriteChunkLog(cfg, s1, req.id, req.env);
      }
    }
  }

  lemma SameLog(log: seq<Event>, id: Id)
    ensures LogGrows(log, log, id)
  {
  }

  lemma PatchFaithful(cfg: Config, file: bytes, s: Server, req: Request)
    requires Possible(cfg, s, req) && req.Patch? && Faithful(file, s, req.id) && Honest(cfg, file, req.id, req)
    ensures Faithful(file, PatchFile(cfg, s, req).0, req.id)
  {
    hide WriteChunk, LogOk, BodyLimit;
    if req.id in s.uploads {
      var u := s.uploads[req.id];
      var d := DeclareLength(cfg, u, req.length);
      if d.Ok? && req.offset == Value(|u.content|) && !u.Complete() && !u.info.isFinal && req.contentTypeOk {
        var s1 := s.(uploads := s.uploads[req.id := u.(info := d.value)]);
        WriteChunkFaithful(cfg, file, s1, req.id, req.env);
      }
    }
  }

  lemma PostFaithful(cfg: Config, file: bytes, s: Server, req: Request)
    requires Possible(cfg, s, req) && req.Post? && Faithful(file, s, req.id) && Honest(cfg, file, req.id, req)
    ensures Faithful(file, PostFile(cfg, s, req).0, req.id)
  {
    hide WriteChunk, LogOk, FinishIfComplete, BodyLimit, FinishCalls, Emissions, LogGrows, Concatenate;
    var v := ValidateLength(cfg, req.length, req.defer);
    if v.Ok? {
      forall partial: bool ensures Faithful(file, PostPlain(cfg, s, req, Info(v.value.0, v.value.1, partial, false, [])).0, req.id) {
        var info := Info(v.value.0, v.value.1, partial, false, []);
        var s1 := NewUpload(s, req.id, info);
        LimitIgnoresKind(cfg, info, 0, req.env.contentLength);
        assert req.containsChunk ==> req.env.got <= req.env.body.data <= file[0..];
        if req.containsChunk {
          WriteChunkFaithful(cfg, file, s1, req.id, req.env);
        } else {
          FinishFaithful(file, s1, req.id, info, [], req.env);
          FinishExtends(s1, req.id, info, [], req.env);
        }
      }
    }
  }

  lemma {:induction false} RunFaithful(
    cfg: Config, file: bytes, id: Id, states: seq<Server>, reqs: seq<Request>, i: nat)
    requires IsRun(cfg, states, reqs) && i < |states|
    requires forall k :: 0 <= k < |reqs| ==> Honest(cfg, file, id, reqs[k])
    ensures Faithful(file, states[i], id)
  {
    hide Possible, Serve, Honest;
    if i > 0 {
      RunFaithful(cfg, file, id, states, reqs, i - 1);
      StepFaithful(cfg, file, states[i - 1], reqs[i - 1], id);
    }
  }

  lemma StepFaithful(cfg: Config, file: bytes, s: Server, req: Request, id: Id)
    requires Possible(cfg, s, req) && Faithful(file, s, id) && Honest(cfg, file, id, req)
    ensures Faithful(file, Serve(cfg, s, req).0, id)
  {
    hide PostFile, PatchFile, BodyLimit;
    if req.id != id {
      OthersFaithful(cfg, file, s, req, id);
    } else if req.Post? {
      PostFaithful(cfg, file, s, req);
    } else if req.Patch? {
      PatchFaithful(cfg, file, s, req);
    } else if req.Delete? {
      TerminatedLogOk(file, s, id);
    }
  }

  /**
   * Resume correctness, for every run in which the requests about one upload are honest to a
   * file, in any order, with repetitions, and each body cut off anywhere: the stored bytes are
   * the prefix of the file whose length HEAD reports as the offset, an Upload-Length that HEAD
   * reports is the file's, a complete upload is the file, and every call of FinishUpload found
   * the file.
   */
  lemma ResumeCorrect(cfg: Config, file: bytes, id: Id, states: seq<Server>, reqs: seq<Request>, i: nat)
    requires IsRun(cfg, states, reqs) && i < |states|
    requires forall k :: 0 <= k < |reqs| ==> Honest(cfg, file, id, reqs[k])
    ensures var s := states[i];
            && (HeadFile(s, id).Head? <==> id in s.uploads)
            && (id in s.uploads ==>
                  var offset := HeadFile(s, id).offset;
                  && offset <= |file| && s.uploads[id].content == file[..offset]
                  && (HeadFile(s, id).length.Some? ==> HeadFile(s, id).length.value == |file|)
                  && (s.uploads[id].Complete() ==> s.uploads[id].content == file))
            && (forall k :: 0 <= k < |s.log| && s.log[k].FinishCall? && s.log[k].id == id ==> s.log[k].content == file)
  {
    hide Possible, Serve, Honest, EMPTY;
    RunFaithful(cfg, file, id, states, reqs, i);
  }

  /** A client that asks for the offset and sends the rest without interruption is done. */
  lemma UninterruptedPatchCompletes(cfg: Config, file: bytes, s: Server, req: Request)
    requires Inv(cfg, s) && Possible(cfg, s, req) && req.Patch? && Faithful(file, s, req.id)
    requires req.id in s.uploads && !s.uploads[req.id].info.isFinal && !s.uploads[req.id].info.deferred
    requires HeadFile(s, req.id).Head? && req.offset == Value(HeadFile(s, req.id).offset) && req.contentTypeOk
    requires req.length.Absent? && req.env.body == BodyReader.Body(file[HeadFile(s, req.id).offset..], true)
    requires req.env.bodyErr.None? && req.env.written == |req.env.got|
    ensures var s' := PatchFile(cfg, s, req).0;
            req.id in s'.uploads && s'.uploads[req.id].content == file && s'.uploads[req.id].Complete()
  {
    hide FinishCalls, Emissions, WriteChunk, BodyLimit, Extends;
    var u := s.uploads[req.id];
    assert s.(uploads := s.uploads[req.id := u]) == s;
    assert file == u.content + file[|u.content|..];
    WriteChunkEffect(cfg, s, req.id, req.env);
  }
}
