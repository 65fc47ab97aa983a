/**
 * The request body as the stores see it. Reads, read errors, the size limit and
 * closeWithError interleave; one step is one access to the shared fields or one
 * read of the underlying connection.
 */
module BodyReader {
  import opened Streams

  datatype Error =
    | UnexpectedEOF
    | ConnectionReset
    | ReadTimeout
    | SizeExceeded
    | ServerShutdown
    | UploadInterrupted
    | StoppedByServer
    | OtherReadError

  /** How a read of the connection can end besides success. */
  datatype RawError =
    | EOF
    | AfterClose
    | ClosedPipe
    | Truncated
    | Reset
    | Deadline
    | TooLarge
    | Other

  /** What the client sends: its bytes, and whether the body ends properly after them. */
  datatype Body = Body(data: bytes, ends: bool)

  datatype Pc = Idle | Checked | Got(n: nat, raw: Option<RawError>) | Counted(n: nat, raw: Option<RawError>)

  /** `taken` bytes left the connection, `output` reached the store, `ended` is set once the
      store was told the stream is over, `closers` are calls of closeWithError that have set
      the error but not yet closed the connection. */
  datatype State = State(
    pc: Pc, taken: nat, counter: nat, err: Option<Error>, closed: bool, closers: nat, output: bytes, ended: bool)

  const INITIAL := State(Idle, 0, 0, None, false, 0, [], false)

  datatype Step =
    | Begin
    | RawRead(n: nat, raw: Option<RawError>)
    | Count
    | Deliver
    | SetError(cause: Error)
    | CloseConnection

  /** http.MaxBytesReader treats a negative limit as zero. */
  function Limit(maxSize: int): nat {
    Max(maxSize, 0)
  }

  /** What the limited connection may answer: an end of file only at the true end, the size
      error only when there is more than the limit, and any other failure at any time. */
  predicate Answer(body: Body, maxSize: int, s: State, n: nat, raw: Option<RawError>) {
    && s.taken + n <= Min(|body.data|, Limit(maxSize))
    && (raw == Some(EOF) ==> body.ends && s.taken + n == |body.data|)
    && (raw == Some(TooLarge) ==> |body.data| > Limit(maxSize) && s.taken + n == Limit(maxSize))
    && (raw == Some(AfterClose) ==> s.closed)
  }

  predicate Enabled(body: Body, maxSize: int, s: State, step: Step) {
    match step
    case Begin => s.pc.Idle?
    case RawRead(n, raw) => s.pc.Checked? && Answer(body, maxSize, s, n, raw)
    case Count => s.pc.Got?
    case Deliver => s.pc.Counted?
    case SetError(cause) => cause.ServerShutdown? || cause.UploadInterrupted? || cause.StoppedByServer?
    case CloseConnection => s.closers > 0
  }

  function Slice(data: bytes, from: nat, n: nat): bytes {
    data[Min(from, |data|)..Min(from + n, |data|)]
  }

  function Translate(raw: RawError): Error {
    match raw
    case ClosedPipe => UnexpectedEOF
    case Truncated => UnexpectedEOF
    case Reset => ConnectionReset
    case Deadline => ReadTimeout
    case TooLarge => SizeExceeded
    case _ => OtherReadError
  }

  function Apply(body: Body, maxSize: int, s: State, step: Step): State
    requires Enabled(body, maxSize, s, step)
  {
    match step
    case Begin => if s.err.Some? then s.(ended := true) else s.(pc := Checked)
    case RawRead(n, raw) => s.(pc := Got(n, raw), taken := s.taken + n)
    case Count => s.(pc := Counted(s.pc.n, s.pc.raw), counter := s.counter + s.pc.n)
    case Deliver =>
      var s' := s.(pc := Idle, output := s.output + Slice(body.data, |s.output|, s.pc.n));
      if s.pc.raw.None? then s'
      else if s.pc.raw.value.EOF? || s.pc.raw.value.AfterClose? then s'.(ended := true)
      else if s.err.None? then s'.(err := Some(Translate(s.pc.raw.value)))
      else s'
    case SetError(cause) => s.(err := Some(cause), closers := s.closers + 1)
    case CloseConnection => s.(closed := true, closers := s.closers - 1)
  }

  ghost predicate Inv(body: Body, maxSize: int, s: State) {
    && s.taken == |s.output| + (if s.pc.Got? || s.pc.Counted? then s.pc.n else 0)
    && s.taken <= Min(|body.data|, Limit(maxSize))
    && s.output <= body.data
    && s.counter == |s.output| + (if s.pc.Counted? then s.pc.n else 0)
    && (s.closed || s.closers > 0 ==> s.err.Some?)
    && (s.pc.Got? || s.pc.Counted? ==> Honest(body, maxSize, s))
    && (s.err == Some(SizeExceeded) ==> |body.data| > Limit(maxSize) == |s.output|)
    && (s.ended ==> s.err.Some? || (body.ends && s.output == body.data))
  }

  /** The pending answer of the connection, still true when it is delivered. */
  ghost predicate Honest(body: Body, maxSize: int, s: State)
    requires s.pc.Got? || s.pc.Counted?
  {
    && (s.pc.raw == Some(TooLarge) ==> |body.data| > Limit(maxSize) == s.taken)
    && (s.pc.raw == Some(EOF) ==> body.ends && s.taken == |body.data|)
    && (s.pc.raw == Some(AfterClose) ==> s.err.Some?)
  }

  lemma StepKeepsInv(body: Body, maxSize: int, s: State, step: Step)
    requires Inv(body, maxSize, s) && Enabled(body, maxSize, s, step)
    ensures Inv(body, maxSize, Apply(body, maxSize, s, step))
    ensures s.err.Some? ==> Apply(body, maxSize, s, step).err.Some?
  {
    if step.Deliver? {
      DeliverKeepsInv(body, maxSize, s);
    }
  }

  lemma DeliverKeepsInv(body: Body, maxSize: int, s: State)
    requires Inv(body, maxSize, s) && s.pc.Counted?
    ensures Inv(body, maxSize, Apply(body, maxSize, s, Deliver))
  {
    hide Translate;
    assert s.output + Slice(body.data, |s.output|, s.pc.n) == body.data[..s.taken];
    TranslateSize(s.pc.raw);
  }

  lemma TranslateSize(raw: Option<RawError>)
    ensures raw.Some? && Translate(raw.value) == SizeExceeded ==> raw == Some(TooLarge)
  {
  }

  ghost predicate IsRun(body: Body, maxSize: int, states: seq<State>, steps: seq<Step>) {
    && |states| == |steps| + 1 && states[0] == INITIAL
    && (forall i :: 0 <= i < |steps| ==>
                      Enabled(body, maxSize, states[i], steps[i]) && states[i + 1] == Apply(body, maxSize, states[i], steps[i]))
  }

  /** What a store may assume about a body it was given: a prefix within the limit, complete
      if no error is reported. */
  ghost predicate Delivered(body: Body, maxSize: int, got: bytes, err: Option<Error>) {
    && got <= body.data && |got| <= Limit(maxSize)
    && (err.None? ==> body.ends && got == body.data)
  }

  lemma {:induction false} RunKeepsInv(body: Body, maxSize: int, states: seq<State>, steps: seq<Step>)
    requires IsRun(body, maxSize, states, steps)
    ensures Inv(body, maxSize, states[|steps|])
    decreases steps
  {
    if steps != [] {
      var n := |steps| - 1;
      RunKeepsInv(body, maxSize, states[..n + 1], steps[..n]);
      StepKeepsInv(body, maxSize, states[n], steps[n]);
    }
  }

  /**
   * Under every interleaving the store receives a prefix of the client's body within the
   * limit; bytesRead is that prefix's length between reads; once the store has been told the
   * stream is over, a missing error means it has the whole body and the body truly ended; and
   * the error about the size means that the body is longer than the limit and was cut there.
   */
  lemma InterruptedBody(body: Body, maxSize: int, states: seq<State>, steps: seq<Step>)
    requires IsRun(body, maxSize, states, steps)
    ensures var s := states[|steps|];
            && s.output <= body.data && |s.output| <= Max(maxSize, 0)
            && (s.pc.Idle? ==> s.counter == |s.output|)
            && (s.ended ==> Delivered(body, maxSize, s.output, s.err))
            && (s.err == Some(SizeExceeded) ==> |body.data| > Max(maxSize, 0) && s.output == body.data[..Max(maxSize, 0)])
  {
    RunKeepsInv(body, maxSize, states, steps);
  }

  ghost predicate EndsWell(body: Body, maxSize: int, states: seq<State>, steps: seq<Step>) {
    IsRun(body, maxSize, states, steps) && states[|steps|].ended && states[|steps|].err.None?
  }

  /** A body can be read to its end without an error if and only if it ends properly and is no
      longer than the limit. */
  lemma EndsWellIff(body: Body, maxSize: int)
    ensures (exists states, steps :: EndsWell(body, maxSize, states, steps)) <==>
            body.ends && |body.data| <= Max(maxSize, 0)
  {
    forall states, steps | EndsWell(body, maxSize, states, steps) ensures body.ends && |body.data| <= Max(maxSize, 0) {
      InterruptedBody(body, maxSize, states, steps);
    }
    if body.ends && |body.data| <= Max(maxSize, 0) {
      var n := |body.data|;
      var steps := [Begin, RawRead(n, Some(EOF)), Count, Deliver];
      var s1 := Apply(body, maxSize, INITIAL, Begin);
      var s2 := Apply(body, maxSize, s1, steps[1]);
      var s3 := Apply(body, maxSize, s2, Count);
      assert EndsWell(body, maxSize, [INITIAL, s1, s2, s3, Apply(body, maxSize, s3, Deliver)], steps);
    }
  }

  /** A longer body can be read up to the limit, and then the error about the size is set. */
  lemma CutAtLimit(body: Body, maxSize: int) returns (states: seq<State>, steps: seq<Step>)
    requires |body.data| > Max(maxSize, 0)
    ensures IsRun(body, maxSize, states, steps)
    ensures states[|steps|].ended && states[|steps|].err == Some(SizeExceeded)
    ensures states[|steps|].output == body.data[..Max(maxSize, 0)]
  {
    steps := [Begin, RawRead(Max(maxSize, 0), Some(TooLarge)), Count, Deliver, Begin];
    var s1 := Apply(body, maxSize, INITIAL, Begin);
    var s2 := Apply(body, maxSize, s1, steps[1]);
    var s3 := Apply(body, maxSize, s2, Count);
    var s4 := Apply(body, maxSize, s3, Deliver);
    states := [INITIAL, s1, s2, s3, s4, Apply(body, maxSize, s4, Begin)];
  }

  function Closings(steps: seq<Step>, n: nat): nat
    requires n <= |steps|
  {
    if n == 0 then 0 else Closings(steps, n - 1) + if steps[n - 1].CloseConnection? then 1 else 0
  }

  function Errors(steps: seq<Step>, n: nat): nat
    requires n <= |steps|
  {
    if n == 0 then 0 else Errors(steps, n - 1) + if steps[n - 1].SetError? then 1 else 0
  }

  /** Every call of closeWithError sets its error and later closes the connection once, and
      nothing else closes it. */
  lemma {:induction false} EveryErrorCloses(body: Body, maxSize: int, states: seq<State>, steps: seq<Step>, n: nat)
    requires IsRun(body, maxSize, states, steps) && n <= |steps|
    ensures states[n].closers + Closings(steps, n) == Errors(steps, n)
    ensures states[n].closed <==> Closings(steps, n) > 0
    ensures Enabled(body, maxSize, states[n], CloseConnection) <==> Closings(steps, n) < Errors(steps, n)
  {
    if n > 0 {
      EveryErrorCloses(body, maxSize, states, steps, n - 1);
      CloserStep(body, maxSize, states[n - 1], steps[n - 1]);
    }
  }

  lemma CloserStep(body: Body, maxSize: int, s: State, step: Step)
    requires Enabled(body, maxSize, s, step)
    ensures var s' := Apply(body, maxSize, s, step);
            && s'.closers + (if step.CloseConnection? then 1 else 0) == s.closers + (if step.SetError? then 1 else 0)
            && (s'.closed <==> s.closed || step.CloseConnection?)
  {
  }

  function Busy(s: State): nat {
    if s.pc.Idle? then 0 else 1
  }

  function Deliveries(steps: seq<Step>, i: nat, j: nat): nat
    requires i <= j <= |steps|
  {
    if i == j then 0 else Deliveries(steps, i, j - 1) + if steps[j - 1].Deliver? then 1 else 0
  }

  /**
   * In every run, once an error is latched: it stays; only a read already under way is still
   * delivered, so between reads the store has received its last byte; and the first new read
   * tells the store that the stream is over, for good.
   */
  lemma {:induction false} ErrorEndsStream(
    body: Body, maxSize: int, states: seq<State>, steps: seq<Step>, i: nat, j: nat)
    requires IsRun(body, maxSize, states, steps) && i <= j < |states| && states[i].err.Some?
    ensures states[j].err.Some?
    ensures Deliveries(steps, i, j) + Busy(states[j]) == Busy(states[i]) <= 1
    ensures states[i].pc.Idle? ==> states[j].output == states[i].output
    ensures (exists k :: i <= k < j && steps[k].Begin?) || states[i].ended ==> states[j].ended
  {
    hide Enabled, Apply;
    if i < j {
      ErrorEndsStream(body, maxSize, states, steps, i, j - 1);
      StepAfterError(body, maxSize, states[j - 1], steps[j - 1]);
    }
  }

  /** The error a handler finds after a read of the connection failed in this way. */
  ghost predicate Remembers(raw: RawError, e: Error) {
    && (raw == ClosedPipe ==> e == UnexpectedEOF)
    && (raw == Truncated ==> e == UnexpectedEOF)
    && (raw == Reset ==> e == ConnectionReset)
    && (raw == Deadline ==> e == ReadTimeout)
    && (raw == TooLarge ==> e == SizeExceeded)
    && (raw == Other ==> e == OtherReadError)
  }

  /**
   * In every run: once a read that failed has been delivered, an error is set. It is the one
   * for that failure, unless another was set before, which is never overwritten by a read. So
   * the next read ends the stream, and the store is never asked to go on after a failure.
   */
  lemma FailedReadIsRemembered(body: Body, maxSize: int, states: seq<State>, steps: seq<Step>, k: nat, j: nat)
    requires IsRun(body, maxSize, states, steps) && k < j < |states| && steps[k].Deliver?
    requires states[k].pc.Counted? && states[k].pc.raw.Some? && states[k].pc.raw.value != EOF
    ensures states[k + 1].err.Some? && states[j].err.Some?
    ensures states[k].err.None? && states[k].pc.raw.value != AfterClose ==>
              Remembers(states[k].pc.raw.value, states[k + 1].err.value)
    ensures states[k].err.Some? ==> states[k + 1].err == states[k].err
    ensures states[k].pc.raw.value == AfterClose ==> states[k].err.Some?
    ensures states[j].output == states[k + 1].output
    ensures (exists m :: k < m < j && steps[m].Begin?) ==> states[j].ended
  {
    assert states[..k + 1][k] == states[k];
    RunKeepsInv(body, maxSize, states[..k + 1], steps[..k]);
    ErrorEndsStream(body, maxSize, states, steps, k + 1, j);
  }

  /** A read that did not fail sets no error, and only an end of file, a read after the close, or
      a set error ends the stream. */
  lemma GoodReadSetsNothing(body: Body, maxSize: int, s: State, step: Step)
    requires Enabled(body, maxSize, s, step)
    ensures var s' := Apply(body, maxSize, s, step);
            && (s'.err != s.err ==>
                  || (step.SetError? && s'.err == Some(step.cause))
                  || (step.Deliver? && s.err.None? && s.pc.raw.Some? && s.pc.raw.value != EOF && s.pc.raw.value != AfterClose))
            && (s'.ended != s.ended ==>
                  || (step.Begin? && s.err.Some?)
                  || (step.Deliver? && s.pc.raw.Some? && (s.pc.raw.value == EOF || s.pc.raw.value == AfterClose)))
            && (step.Deliver? && s.pc.raw == Some(EOF) ==> s'.ended)
            && (step.Begin? && s.err.None? ==> s'.pc.Checked?)
            && (step.SetError? ==> s'.err == Some(step.cause))
  {
  }

  lemma StepAfterError(body: Body, maxSize: int, s: State, step: Step)
    requires s.err.Some? && Enabled(body, maxSize, s, step)
    ensures var s' := Apply(body, maxSize, s, step);
            && s'.err.Some?
            && Busy(s') + (if step.Deliver? then 1 else 0) == Busy(s)
            && (s.pc.Idle? ==> s'.output == s.output)
            && (step.Begin? || s.ended ==> s'.ended)
  {
  }
}
