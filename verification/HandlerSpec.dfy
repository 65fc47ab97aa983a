/**
 * The request handler for version 1.0.0 of the tus protocol, on values. A store is a map
 * from upload ids to their info and bytes; everything a request meets outside the handler
 * (the body that arrives, how far the store gets, the hooks' verdict) is part of the request.
 */
module HandlerSpec {
  import opened Streams
  import opened Strings
  import opened BodyReader

  type Id = string

  datatype Config = Config(
    maxSize: nat, usesDeferrer: bool, usesConcater: bool, disableConcat: bool, usesTerminater: bool)

  datatype Info = Info(size: nat, deferred: bool, isPartial: bool, isFinal: bool, partials: seq<Id>)

  datatype Upload = Upload(info: Info, content: bytes) {
    /** The upload has its declared length. */
    predicate Complete() {
      !info.deferred && |content| == info.size
    }
  }

  /** FinishCall is the store's FinishUpload, with the bytes stored then; Emitted the finish event. */
  datatype Event =
    | FinishCall(id: Id, content: bytes)
    | Emitted(id: Id)
    | Terminated(id: Id)

  /** `created` remembers every id the store ever handed out, and whether for a final upload. */
  datatype Server = Server(uploads: map<Id, Upload>, created: map<Id, bool>, log: seq<Event>)

  datatype HandlerError =
    | InvalidContentType
    | InvalidOffset
    | NotFound
    | ModifyFinal
    | MismatchOffset
    | NotImplemented
    | InvalidUploadLength
    | BothLengths
    | InvalidDeferLength
    | MaxSizeExceeded
    | TooMuch
    | InvalidConcat
    | ConcatUnsupported
    | NotFinished
    | BodyError(cause: BodyReader.Error)
    | StoreError
    | FinishError
    | HookError
    | CreateError
    | TerminateError

  datatype Response =
    | Failed(error: HandlerError)
    | CreatedAt(id: Id, sent: Option<nat>)
    | NoContent(offset: nat)
    | Head(offset: nat, length: Option<nat>, concat: Concat)
    | Deleted

  /** A header that should hold a number. */
  datatype Header = Absent | Malformed | Value(n: int)

  datatype DeferHeader = DeferAbsent | DeferOne | DeferOther

  datatype Concat = NoConcat | PartialUpload | FinalUpload(ids: seq<Id>) | BadConcat

  /** The outside of one chunk write: the announced length (-1 if unknown), the client's body,
      the part of it that arrived with the error the body reader keeps, how many of these
      bytes the store wrote, and whether finishing and the finish hook succeed. For a POST also
      whether the pre-create hook and the store let the upload be created, and whether the
      store's concatenation succeeds. */
  datatype Env = Env(
    contentLength: int, body: Body, got: bytes, bodyErr: Option<BodyReader.Error>,
    written: nat, finishOk: bool, hookOk: bool, createOk: bool, concatOk: bool)

  datatype Request =
    | Post(id: Id, concat: Concat, length: Header, defer: DeferHeader, containsChunk: bool, env: Env)
    | HeadOf(id: Id)
    | Patch(id: Id, contentTypeOk: bool, offset: Header, length: Header, env: Env)
    | Delete(id: Id, terminateOk: bool)

  // -------------------------------------------------------------- chunk writes

  /** The limit given to the body reader. */
  function BodyLimit(cfg: Config, info: Info, offset: nat, contentLength: int): Option<int> {
    if contentLength > 0 then Some(contentLength)
    else if !info.deferred then Some(info.size - offset)
    else if cfg.maxSize > 0 then Some(cfg.maxSize - offset)
    else None
  }

  /** What the body reader guarantees (see BodyReader.InterruptedBody) and what a store reports. */
  ghost predicate Arrives(limit: Option<int>, env: Env) {
    && (if limit.Some? then Delivered(env.body, limit.value, env.got, env.bodyErr)
        else env.got <= env.body.data && (env.bodyErr.None? ==> env.body.ends && env.got == env.body.data))
    && env.written <= |env.got|
    && (env.contentLength >= 0 ==> |env.body.data| <= env.contentLength)
    && (env.contentLength >= 0 && env.body.ends ==> |env.body.data| == env.contentLength)
  }

  /** finishUploadIfComplete on a handler-side copy of the info. */
  function FinishIfComplete(s: Server, id: Id, info: Info, content: bytes, env: Env): (Server, Option<HandlerError>) {
    if info.deferred || |content| != info.size then (s, None)
    else
      var s1 := s.(log := s.log + [FinishCall(id, content)]);
      if !env.finishOk then (s1, Some(FinishError))
      else if !env.hookOk then (s1, Some(HookError))
      else (s1.(log := s1.log + [Emitted(id)]), None)
  }

  /** writeChunk: `info` is the handler's copy, whose length may just have been declared. */
  function WriteChunk(cfg: Config, s: Server, id: Id, env: Env): (Server, Option<HandlerError>)
    requires id in s.uploads && env.written <= |env.got|
  {
    var u := s.uploads[id];
    if !u.info.deferred && |u.content| + env.contentLength > u.info.size then (s, Some(TooMuch))
    else
      var content := u.content + env.got[..env.written];
      var s1 := s.(uploads := s.uploads[id := u.(content := content)]);
      var s2 := if env.bodyErr == Some(StoppedByServer) && cfg.usesTerminater
                then Terminate(s1, id) else s1;
      var (s3, finishErr) := FinishIfComplete(s2, id, u.info, content, env);
      if env.written < |env.got| then (s3, Some(StoreError))
      else if env.bodyErr.Some? then (s3, Some(BodyError(env.bodyErr.value)))
      else (s3, finishErr)
  }

  function Terminate(s: Server, id: Id): Server {
    s.(uploads := s.uploads - {id}, log := s.log + [Terminated(id)])
  }

  // ---------------------------------------------------------------------- POST

  /** validateNewUploadLengthHeaders: the size and whether it is deferred. */
  function ValidateLength(cfg: Config, length: Header, defer: DeferHeader): (r: Result<(nat, bool), HandlerError>)
    ensures r.Ok? <==>
            || (length.Absent? && defer.DeferOne? && cfg.usesDeferrer)
            || (length.Value? && length.n >= 0 && defer.DeferAbsent?)
    ensures r.Ok? ==> r.value == (if length.Value? then length.n else 0, defer.DeferOne?)
  {
    if defer.DeferOne? && !cfg.usesDeferrer then Err(NotImplemented)
    else if !length.Absent? && !defer.DeferAbsent? then Err(BothLengths)
    else if defer.DeferOther? then Err(InvalidDeferLength)
    else if defer.DeferOne? then Ok((0, true))
    else if length.Value? && length.n >= 0 then Ok((length.n, false))
    else Err(InvalidUploadLength)
  }

  const MAX_INT64 := 0x7fff_ffff_ffff_ffff

  /** strconv.ParseInt in base 10 with 64 bits: an optional sign, then digits, without overflow. */
  function ParseInt(text: string): Option<int> {
    var signed := text != "" && (text[0] == '-' || text[0] == '+');
    match Atoi(if signed then text[1..] else text)
    case None => None
    case Some(n) =>
      var value: int := if signed && text[0] == '-' then 0 - n as int else n;
      if -MAX_INT64 - 1 <= value <= MAX_INT64 then Some(value) else None
  }

  function ReadNumber(text: string): Header {
    if text == "" then Absent
    else
      match ParseInt(text)
      case None => Malformed
      case Some(n) => Value(n)
  }

  function ReadDefer(text: string): DeferHeader {
    if text == "" then DeferAbsent else if text == "1" then DeferOne else DeferOther
  }

  /** One or more digits whose value is at most `max`. */
  predicate DigitsUpTo(s: string, max: nat) {
    AllDigits(s) && Atoi(s).Some? && Atoi(s).value <= max
  }

  /** A header text is a number exactly if it is an optional sign and then one or more digits whose
      value fits into 64 bits. */
  lemma NumberTexts(text: string)
    ensures ReadNumber(text) == Absent <==> text == ""
    ensures ReadNumber(text).Value? <==>
            || DigitsUpTo(text, MAX_INT64)
            || (text != "" && text[0] == '+' && DigitsUpTo(text[1..], MAX_INT64))
            || (text != "" && text[0] == '-' && DigitsUpTo(text[1..], MAX_INT64 + 1))
    ensures ReadNumber(text).Value? && text[0] != '-' ==> ReadNumber(text).n >= 0
    ensures ReadNumber(text).Value? && text[0] == '-' ==> Atoi(text[1..]) == Some(-ReadNumber(text).n)
  {
    hide Atoi;
    AtoiDigits(text);
    if text != "" {
      AtoiDigits(text[1..]);
    }
  }

  /** A creation request with these two header texts is accepted exactly if the length is left open
      by the text "1" and may be, or is written as a 64-bit number that is not negative; every such
      number is accepted in its decimal form. */
  lemma LengthHeaders(cfg: Config, length: string, defer: string, n: nat)
    ensures var r := ValidateLength(cfg, ReadNumber(length), ReadDefer(defer));
            && (r.Ok? <==>
                || (length == "" && defer == "1" && cfg.usesDeferrer)
                || (defer == "" && DigitsUpTo(length, MAX_INT64))
                || (defer == "" && length != "" && length[0] == '+' && DigitsUpTo(length[1..], MAX_INT64))
                || (defer == "" && length != "" && length[0] == '-' && DigitsUpTo(length[1..], 0)))
            && (length == "" && defer == "1" && cfg.usesDeferrer ==> r == Ok((0, true)))
            && (defer == "" && length == Itoa(n) ==> r == if n <= MAX_INT64 then Ok((n, false)) else Err(InvalidUploadLength))
            && (defer == "" && n > 0 && length == "-" + Itoa(n) ==> r == Err(InvalidUploadLength))
  {
    hide Atoi, Itoa;
    NumberTexts(length);
    NumberTexts("-" + Itoa(n));
    AtoiItoa(n);
    DigitsAvoid(n, '-');
    DigitsAvoid(n, '+');
    assert ("-" + Itoa(n))[1..] == Itoa(n);
    assert Itoa(n)[0] in Itoa(n);
  }

  /** sizeOfUploads and, with it, the bytes a final upload will hold. */
  function Concatenate(s: Server, ids: seq<Id>): Result<bytes, HandlerError> {
    if ids == [] then Ok([])
    else if ids[0] !in s.uploads then Err(NotFound)
    else if !s.uploads[ids[0]].Complete() then Err(NotFinished)
    else
      match Concatenate(s, ids[1..])
      case Err(e) => Err(e)
      case Ok(rest) => Ok(s.uploads[ids[0]].content + rest)
  }

  function NewUpload(s: Server, id: Id, info: Info): Server {
    s.(uploads := s.uploads[id := Upload(info, [])], created := s.created[id := info.isFinal])
  }

  function PostFile(cfg: Config, s: Server, req: Request): (Server, Response)
    requires req.Post? && req.env.written <= |req.env.got|
  {
    var concat := if cfg.usesConcater then req.concat else NoConcat;
    if !concat.NoConcat? && cfg.disableConcat then (s, Failed(ConcatUnsupported))
    else if concat.BadConcat? || (concat.FinalUpload? && concat.ids == []) then (s, Failed(InvalidConcat))
    else if concat.FinalUpload? then
      if req.containsChunk then (s, Failed(ModifyFinal))
      else
        match Concatenate(s, concat.ids)
        case Err(e) => (s, Failed(e))
        case Ok(content) => PostFinal(cfg, s, req, concat.ids, content)
    else
      match ValidateLength(cfg, req.length, req.defer)
      case Err(e) => (s, Failed(e))
      case Ok((size, deferred)) =>
        if cfg.maxSize > 0 && size > cfg.maxSize then (s, Failed(MaxSizeExceeded))
        else if !req.env.createOk then (s, Failed(CreateError))
        else PostPlain(cfg, s, req, Info(size, deferred, concat.PartialUpload?, false, []))
  }

  /** A final upload: created, filled by the store's concatenation, and its finish event sent.
      A failing concatenation leaves the empty upload behind. */
  function PostFinal(cfg: Config, s: Server, req: Request, ids: seq<Id>, content: bytes): (Server, Response)
    requires req.Post?
  {
    if cfg.maxSize > 0 && |content| > cfg.maxSize then (s, Failed(MaxSizeExceeded))
    else if !req.env.createOk then (s, Failed(CreateError))
    else
      var info := Info(|content|, false, false, true, ids);
      var s1 := NewUpload(s, req.id, info);
      if !req.env.concatOk then (s1, Failed(StoreError))
      else
        var s2 := s1.(uploads := s1.uploads[req.id := Upload(info, content)]);
        if !req.env.hookOk then (s2, Failed(HookError))
        else
          var s3 := s2.(log := s2.log + [Emitted(req.id)]);
          if |content| == 0 then Answer(FinishIfComplete(s3, req.id, info, content, req.env), CreatedAt(req.id, None))
          else (s3, CreatedAt(req.id, None))
  }

  function PostPlain(cfg: Config, s: Server, req: Request, info: Info): (Server, Response)
    requires req.Post? && req.env.written <= |req.env.got|
  {
    var s1 := NewUpload(s, req.id, info);
    if req.containsChunk then
      Answer(WriteChunk(cfg, s1, req.id, req.env), CreatedAt(req.id, Some(req.env.written)))
    else if !info.deferred && info.size == 0 then
      Answer(FinishIfComplete(s1, req.id, info, [], req.env), CreatedAt(req.id, None))
    else (s1, CreatedAt(req.id, None))
  }

  function Answer(outcome: (Server, Option<HandlerError>), success: Response): (Server, Response) {
    (outcome.0, if outcome.1.Some? then Failed(outcome.1.value) else success)
  }

  // ------------------------------------------------- PATCH, HEAD and DELETE

  /** The length declaration a PATCH may carry. */
  function DeclareLength(cfg: Config, u: Upload, length: Header): Result<Info, HandlerError> {
    if length.Absent? then Ok(u.info)
    else if !cfg.usesDeferrer then Err(NotImplemented)
    else if !u.info.deferred then Err(InvalidUploadLength)
    else if length.Malformed? || length.n < 0 || length.n < |u.content| || (cfg.maxSize > 0 && length.n > cfg.maxSize)
    then Err(InvalidUploadLength)
    else Ok(u.info.(size := length.n, deferred := false))
  }

  function PatchFile(cfg: Config, s: Server, req: Request): (Server, Response)
    requires req.Patch? && req.env.written <= |req.env.got|
  {
    if !req.contentTypeOk then (s, Failed(InvalidContentType))
    else if !req.offset.Value? || req.offset.n < 0 then (s, Failed(InvalidOffset))
    else if req.id !in s.uploads then (s, Failed(NotFound))
    else
      var u := s.uploads[req.id];
      if u.info.isFinal then (s, Failed(ModifyFinal))
      else if req.offset.n != |u.content| then (s, Failed(MismatchOffset))
      else if u.Complete() then (s, NoContent(|u.content|))
      else
        match DeclareLength(cfg, u, req.length)
        case Err(e) => (s, Failed(e))
        case Ok(info) =>
          var s1 := s.(uploads := s.uploads[req.id := u.(info := info)]);
          Answer(WriteChunk(cfg, s1, req.id, req.env), NoContent(|u.content| + req.env.written))
  }

  function HeadFile(s: Server, id: Id): Response {
    if id !in s.uploads then Failed(NotFound)
    else
      var u := s.uploads[id];
      Head(|u.content|,
           if u.info.deferred then None else Some(u.info.size),
           if u.info.isFinal then FinalUpload(u.info.partials) else if u.info.isPartial then PartialUpload else NoConcat)
  }

  /** DELETE: refused by the pre-terminate hook or the store, it leaves the upload alone. */
  function DelFile(cfg: Config, s: Server, id: Id, terminateOk: bool): (Server, Response) {
    if !cfg.usesTerminater then (s, Failed(NotImplemented))
    else if id !in s.uploads then (s, Failed(NotFound))
    else if !terminateOk then (s, Failed(TerminateError))
    else (Terminate(s, id), Deleted)
  }

  function Serve(cfg: Config, s: Server, req: Request): (Server, Response)
    requires req.Post? || req.Patch? ==> req.env.written <= |req.env.got|
  {
    match req
    case Post(_, _, _, _, _, _) => PostFile(cfg, s, req)
    case HeadOf(id) => (s, HeadFile(s, id))
    case Patch(_, _, _, _, _) => PatchFile(cfg, s, req)
    case Delete(id, ok) => DelFile(cfg, s, id, ok)
  }

  // -------------------------------------------------------- possible requests

  /** What surrounds the handler keeps: the store hands out new ids only, and bodies arrive
      through the body reader. */
  ghost predicate Possible(cfg: Config, s: Server, req: Request) {
    match req
    case Post(id, _, length, defer, _, env) =>
      && id !in s.created
      && (forall size, deferred :: ValidateLength(cfg, length, defer) == Ok((size, deferred)) ==>
                                     Arrives(BodyLimit(cfg, Info(size, deferred, false, false, []), 0, env.contentLength), env))
      && env.written <= |env.got|
    case Patch(id, _, _, length, env) =>
      && (id in s.uploads && DeclareLength(cfg, s.uploads[id], length).Ok? ==>
            Arrives(BodyLimit(cfg, DeclareLength(cfg, s.uploads[id], length).value, |s.uploads[id].content|, env.contentLength), env))
      && env.written <= |env.got|
    case _ => true
  }
}
