/** The request handler as it runs, changing the store and the log step by step. */
module Handler {
  import opened Streams
  import BodyReader
  import Spec = HandlerSpec
  import opened HandlerSpec
  import opened HandlerTheorems
  import HandlerAnswers

  /** What every request promises its caller: from a sound store it leaves a sound store, in
      which the uploads that were there and still are have only grown, the offset in a
      successful answer is what is stored, and a created upload is new and is the one the answer
      names. */
  ghost predicate Serves(cfg: Config, s: Server, req: Request, s': Server, resp: Response) {
    Inv(cfg, s) && Possible(cfg, s, req) ==>
      && Inv(cfg, s')
      && (forall id :: id in s.uploads && id in s'.uploads ==> Grows(s.uploads[id], s'.uploads[id]))
      && (resp.NoContent? && req.id in s'.uploads ==> resp.offset == |s'.uploads[req.id].content|)
      && (resp.CreatedAt? ==>
            && resp.id !in s.created && resp.id in s'.uploads && s'.uploads.Keys == s.uploads.Keys + {resp.id}
            && (resp.sent.Some? ==> resp.sent.value == |s'.uploads[resp.id].content|))
  }

  lemma ServesWell(cfg: Config, s: Server, req: Request)
    requires req.Post? || req.Patch? ==> req.env.written <= |req.env.got|
    ensures var (s', resp) := Serve(cfg, s, req); Serves(cfg, s, req, s', resp)
  {
    hide Serve, Possible, Inv, Grows;
    if Inv(cfg, s) && Possible(cfg, s, req) {
      ServeKeepsInv(cfg, s, req);
      ReportedOffset(cfg, s, req);
      OnlyPatchAnswersOffset(cfg, s, req);
      CreatedAnswer(cfg, s, req);
      forall id | id in s.uploads && id in Serve(cfg, s, req).0.uploads
        ensures Grows(s.uploads[id], Serve(cfg, s, req).0.uploads[id])
      {
        ServeGrows(cfg, s, req, id);
      }
    }
  }

  lemma CreatedAnswer(cfg: Config, s: Server, req: Request)
    requires Possible(cfg, s, req)
    ensures var (s', resp) := Serve(cfg, s, req);
            resp.CreatedAt? ==>
              && resp.id !in s.created && resp.id in s'.uploads && s'.uploads.Keys == s.uploads.Keys + {resp.id}
              && (resp.sent.Some? ==> resp.sent.value == |s'.uploads[resp.id].content|)
  {
    hide PostFile, WriteChunk, Arrives, BodyLimit, Concatenate;
    if req.Post? {
      HandlerAnswers.PostAnswer(cfg, s, req);
    }
  }

  lemma OnlyPatchAnswersOffset(cfg: Config, s: Server, req: Request)
    requires req.Post? || req.Patch? ==> req.env.written <= |req.env.got|
    ensures Serve(cfg, s, req).1.NoContent? ==> req.Patch?
  {
    hide WriteChunk, FinishIfComplete, Concatenate;
  }

  class UnroutedHandler {
    const cfg: Config
    var server: Server

    constructor (cfg: Config)
      ensures this.cfg == cfg && server == Server(map[], map[], [])
    {
      this.cfg := cfg;
      server := Server(map[], map[], []);
    }

    method Log(e: Event)
      modifies this
      ensures server == old(server).(log := old(server).log + [e])
    {
      server := server.(log := server.log + [e]);
    }

    method FinishUploadIfComplete(id: Id, info: Info, content: bytes, env: Env) returns (err: Option<HandlerError>)
      modifies this
      ensures (server, err) == FinishIfComplete(old(server), id, info, content, env)
    {
      err := None;
      if !info.deferred && |content| == info.size {
        Log(FinishCall(id, content));
        if !env.finishOk {
          return Some(FinishError);
        }
        if !env.hookOk {
          return Some(HookError);
        }
        Log(Emitted(id));
      }
    }

    method TerminateUpload(id: Id)
      modifies this
      ensures server == Terminate(old(server), id)
    {
      server := server.(uploads := server.uploads - {id});
      Log(Terminated(id));
    }

    method WriteChunk(id: Id, env: Env) returns (err: Option<HandlerError>)
      requires id in server.uploads && env.written <= |env.got|
      modifies this
      ensures (server, err) == Spec.WriteChunk(cfg, old(server), id, env)
    {
      var u := server.uploads[id];
      var info, offset := u.info, |u.content|;
      if !info.deferred && offset + env.contentLength > info.size {
        return Some(TooMuch);
      }
      var content := u.content + env.got[..env.written];
      server := server.(uploads := server.uploads[id := u.(content := content)]);
      var writeErr: Option<HandlerError> := if env.written < |env.got| then Some(StoreError) else None;
      if writeErr.None? && env.bodyErr.Some? {
        writeErr := Some(BodyError(env.bodyErr.value));
      }
      if env.bodyErr == Some(BodyReader.StoppedByServer) && cfg.usesTerminater {
        TerminateUpload(id);
      }
      var finishErr := FinishUploadIfComplete(id, info, content, env);
      err := if writeErr.Some? then writeErr else finishErr;
    }

    /** sizeOfUploads: stops at the first partial upload that is missing or unfinished. */
    method SizeOfUploads(ids: seq<Id>) returns (size: nat, err: Option<HandlerError>)
      ensures match Concatenate(server, ids)
              case Ok(content) => err == None && size == |content|
              case Err(e) => err == Some(e)
    {
      size, err := 0, None;
      for i := 0 to |ids|
        invariant match Concatenate(server, ids[i..])
                  case Ok(rest) => Concatenate(server, ids).Ok? && size + |rest| == |Concatenate(server, ids).value|
                  case Err(e) => Concatenate(server, ids) == Err(e)
      {
        assert ids[i..][1..] == ids[i + 1..];
        if ids[i] !in server.uploads {
          return size, Some(NotFound);
        }
        var info := server.uploads[ids[i]].info;
        if info.deferred || |server.uploads[ids[i]].content| != info.size {
          return size, Some(NotFinished);
        }
        size := size + info.size;
      }
    }

    method PostFile(req: Request) returns (resp: Response)
      requires req.Post? && req.env.written <= |req.env.got|
      modifies this
      ensures (server, resp) == Spec.PostFile(cfg, old(server), req)
      ensures Serves(cfg, old(server), req, server, resp)
    {
      ServesWell(cfg, server, req);
      var concat := if cfg.usesConcater then req.concat else NoConcat;
      if !concat.NoConcat? && cfg.disableConcat {
        return Failed(ConcatUnsupported);
      }
      if concat.BadConcat? || (concat.FinalUpload? && concat.ids == []) {
        return Failed(InvalidConcat);
      }
      var size: nat, deferred := 0, false;
      if concat.FinalUpload? {
        if req.containsChunk {
          return Failed(ModifyFinal);
        }
        var total, sizeErr := SizeOfUploads(concat.ids);
        if sizeErr.Some? {
          return Failed(sizeErr.value);
        }
        size := total;
      } else {
        var v := ValidateLength(cfg, req.length, req.defer);
        if v.Err? {
          return Failed(v.error);
        }
        size, deferred := v.value.0, v.value.1;
      }
      if cfg.maxSize > 0 && size > cfg.maxSize {
        return Failed(MaxSizeExceeded);
      }
      if !req.env.createOk {
        return Failed(CreateError);
      }
      var info := Info(size, deferred, concat.PartialUpload?, concat.FinalUpload?,
                       if concat.FinalUpload? then concat.ids else []);
      var before := server;
      server := NewUpload(server, req.id, info);
      if info.isFinal {
        if !req.env.concatOk {
          return Failed(StoreError);
        }
        var content := Concatenate(before, concat.ids).value;
        server := server.(uploads := server.uploads[req.id := Upload(info, content)]);
        if !req.env.hookOk {
          return Failed(HookError);
        }
        Log(Emitted(req.id));
        if size == 0 {
          var err := FinishUploadIfComplete(req.id, info, content, req.env);
          return if err.Some? then Failed(err.value) else CreatedAt(req.id, None);
        }
        return CreatedAt(req.id, None);
      }
      var err: Option<HandlerError> := None;
      var sent: Option<nat> := None;
      if req.containsChunk {
        err := WriteChunk(req.id, req.env);
        sent := Some(req.env.written);
      } else if !deferred && size == 0 {
        err := FinishUploadIfComplete(req.id, info, [], req.env);
      }
      return if err.Some? then Failed(err.value) else CreatedAt(req.id, sent);
    }

    method HeadFile(id: Id) returns (resp: Response)
      ensures resp == Spec.HeadFile(server, id)
    {
      if id !in server.uploads {
        return Failed(NotFound);
      }
      var u := server.uploads[id];
      var concat := NoConcat;
      if u.info.isPartial {
        concat := PartialUpload;
      }
      if u.info.isFinal {
        concat := FinalUpload(u.info.partials);
      }
      return Head(|u.content|, if u.info.deferred then None else Some(u.info.size), concat);
    }

    method PatchFile(req: Request) returns (resp: Response)
      requires req.Patch? && req.env.written <= |req.env.got|
      modifies this
      ensures (server, resp) == Spec.PatchFile(cfg, old(server), req)
      ensures Serves(cfg, old(server), req, server, resp)
    {
      ServesWell(cfg, server, req);
      if !req.contentTypeOk {
        return Failed(InvalidContentType);
      }
      if !req.offset.Value? || req.offset.n < 0 {
        return Failed(InvalidOffset);
      }
      if req.id !in server.uploads {
        return Failed(NotFound);
      }
      var u := server.uploads[req.id];
      if u.info.isFinal {
        return Failed(ModifyFinal);
      }
      var offset := |u.content|;
      if req.offset.n != offset {
        return Failed(MismatchOffset);
      }
      if !u.info.deferred && offset == u.info.size {
        return NoContent(offset);
      }
      if !req.length.Absent? {
        if !cfg.usesDeferrer {
          return Failed(NotImplemented);
        }
        if !u.info.deferred {
          return Failed(InvalidUploadLength);
        }
        if req.length.Malformed? || req.length.n < 0 || req.length.n < offset
           || (cfg.maxSize > 0 && req.length.n > cfg.maxSize) {
          return Failed(InvalidUploadLength);
        }
        u := u.(info := u.info.(size := req.length.n, deferred := false));
      }
      server := server.(uploads := server.uploads[req.id := u]);
      var err := WriteChunk(req.id, req.env);
      return if err.Some? then Failed(err.value) else NoContent(offset + req.env.written);
    }

    method DelFile(id: Id, terminateOk: bool) returns (resp: Response)
      modifies this
      ensures (server, resp) == Spec.DelFile(cfg, old(server), id, terminateOk)
      ensures Serves(cfg, old(server), Delete(id, terminateOk), server, resp)
    {
      ServesWell(cfg, server, Delete(id, terminateOk));
      if !cfg.usesTerminater {
        return Failed(NotImplemented);
      }
      if id !in server.uploads {
        return Failed(NotFound);
      }
      if !terminateOk {
        return Failed(TerminateError);
      }
      TerminateUpload(id);
      return Deleted;
    }
  }
}
