/** The values that the executor and the orchestrator exchange: message contents, tool
    calls and their answers, and Go error chains with `errors.Is`. */
module Llm {
  datatype Option<+T> = None | Some(value: T)

  /** The sentinel errors the agent tests for. */
  datatype Sentinel =
    | Transient | Terminal | Auth | RateLimit | ContentFilter
    | ContextLimitExceeded | BudgetExceeded | MaxTurnsReached | Logic | EmptyResponse
    | Canceled | DeadlineExceeded | UserDeclined

  /** An error tree. `Foreign` matches no sentinel; its `timeout` field says what its
      Timeout method answers, `None` when it has no such method. */
  datatype Error =
    | Base(sentinel: Sentinel)
    | Foreign(message: string, timeout: Option<bool>)
    | Agent(category: Error, message: string, cause: Option<Error>)
    | Wrap(message: string, inner: Error)
    | Joined(errs: seq<Error>)
  {
    /** errors.Is: an agent error also answers for its category. */
    predicate Is(s: Sentinel) {
      match this
      case Base(t) => s == t
      case Foreign(_, _) => false
      case Agent(category, _, cause) => category.Is(s) || (cause.Some? && cause.value.Is(s))
      case Wrap(_, inner) => inner.Is(s)
      case Joined(errs) => exists e | e in errs :: e.Is(s)
    }

    predicate IsTransient() { Is(Transient) || Is(RateLimit) }

    predicate IsTerminal() {
      Is(Terminal) || Is(BudgetExceeded) || Is(MaxTurnsReached) || Is(ContextLimitExceeded) || Is(ContentFilter)
    }

    predicate IsFatal() { IsTerminal() || Is(Auth) || Is(Logic) }

    /** errors.As to the Timeout interface: the answer of the first error of the chain
        that has the method. */
    function FirstTimeout(): Option<bool> {
      match this
      case Base(s) => if s == DeadlineExceeded then Some(true) else None
      case Foreign(_, timeout) => timeout
      case Agent(_, _, cause) => if cause.Some? then cause.value.FirstTimeout() else None
      case Wrap(_, inner) => inner.FirstTimeout()
      case Joined(errs) => FirstTimeoutOf(errs)
    }

    static function FirstTimeoutOf(errs: seq<Error>): Option<bool> {
      if errs == [] then None
      else
        var head := errs[0].FirstTimeout();
        if head.Some? then head else FirstTimeoutOf(errs[1..])
    }
  }

  datatype Category = RateLimited | ContextOverflow | AuthFailure | ServerError | TimedOut

  /** ClassifyLLMError: the sentinels in order of precedence, then the timeouts. */
  function Classify(e: Error): Category {
    if e.Is(RateLimit) then RateLimited
    else if e.Is(Auth) || e.Is(ContentFilter) then AuthFailure
    else if e.Is(ContextLimitExceeded) || e.Is(BudgetExceeded) then ContextOverflow
    else if e.Is(DeadlineExceeded) || e.FirstTimeout() == Some(true) then TimedOut
    else ServerError
  }

  /** The wrapping every phase applies to an error before it returns it. */
  function PhaseError(message: string, e: Error): Error {
    Agent(Base(if e.IsTransient() then Transient else Terminal), message, Some(e))
  }

  /** Wrapping hides nothing from the recovery step: the category survives, a transient
      error stays transient, and every other error becomes fatal. */
  lemma {:induction false} PhaseErrorTransparent(message: string, e: Error)
    ensures Classify(PhaseError(message, e)) == Classify(e)
    ensures PhaseError(message, e).IsTransient() == e.IsTransient()
    ensures PhaseError(message, e).IsFatal() == (!e.IsTransient() || e.IsFatal())
    ensures PhaseError(message, e).Is(EmptyResponse) == e.Is(EmptyResponse)
  {
    var w := PhaseError(message, e);
    forall s: Sentinel
      ensures w.Is(s) == (s == w.category.sentinel || e.Is(s))
    {
      assert w.category.Is(s) == (s == w.category.sentinel);
    }
    assert w.FirstTimeout() == e.FirstTimeout();
  }

  /** A context error: what ctx.Err() can return. */
  predicate ContextError(e: Error) { e == Base(Canceled) || e == Base(DeadlineExceeded) }

  datatype FunctionCall = FunctionCall(id: string, name: string, args: string)
  datatype FunctionResponse = FunctionResponse(id: string, name: string, payload: string)
  datatype Blob = Blob(mime: string, data: string)

  datatype Part = Part(
    text: string,
    thought: bool,
    media: Option<Blob>,
    call: Option<FunctionCall>,
    response: Option<FunctionResponse>,
    asset: string,
    signature: string)
  {
    predicate IsEmpty() {
      text == "" && media.None? && call.None? && response.None? && asset == "" && !thought && signature == ""
    }
  }

  function TextPart(text: string): Part { Part(text, false, None, None, None, "", "") }
  function MediaPart(b: Blob): Part { Part("", false, Some(b), None, None, "", "") }
  function ResponsePart(r: FunctionResponse): Part { Part("", false, None, None, Some(r), "", "") }

  datatype Role = User | Model | Tool
  datatype Content = Content(id: string, role: Role, parts: seq<Part>)

  /** The function calls of a message, in order. */
  function CallsOf(parts: seq<Part>): seq<FunctionCall> {
    if parts == [] then [] else CallOf(parts[0]) + CallsOf(parts[1..])
  }

  function CallOf(p: Part): seq<FunctionCall> { if p.call.Some? then [p.call.value] else [] }

  function Calls(c: Content): seq<FunctionCall> { CallsOf(c.parts) }

  predicate HasToolCalls(c: Content) { exists p | p in c.parts :: p.call.Some? }

  lemma {:induction false} HasToolCallsIff(c: Content)
    ensures HasToolCalls(c) <==> Calls(c) != []
    decreases |c.parts|
  {
    if c.parts != [] {
      var rest := c.(parts := c.parts[1..]);
      HasToolCallsIff(rest);
      assert forall p :: p in c.parts <==> p == c.parts[0] || p in rest.parts;
    }
  }

  /** isResponseEmpty on a response that is not nil. */
  predicate IsResponseEmpty(c: Content) { forall p | p in c.parts :: p.IsEmpty() }

  /** Who a message answers: call ID and name of its function responses, in order. */
  function AnswersOf(parts: seq<Part>): seq<(string, string)> {
    if parts == [] then []
    else AnswerOf(parts[0]) + AnswersOf(parts[1..])
  }

  function AnswerOf(p: Part): seq<(string, string)> {
    if p.response.Some? then [(p.response.value.id, p.response.value.name)] else []
  }

  function Asked(calls: seq<FunctionCall>): seq<(string, string)> {
    seq(|calls|, i requires 0 <= i < |calls| => (calls[i].id, calls[i].name))
  }

  /** `answer` answers exactly the calls of `call`, one response each, in call order. */
  predicate Answers(answer: Content, call: Content) {
    AnswersOf(answer.parts) == Asked(Calls(call))
  }

  lemma {:induction false} AnswersOfConcat(a: seq<Part>, b: seq<Part>)
    ensures AnswersOf(a + b) == AnswersOf(a) + AnswersOf(b)
  {
    if a == [] {
      assert a + b == b;
    } else {
      AnswersOfConcat(a[1..], b);
      var head, rest, last := AnswerOf(a[0]), AnswersOf(a[1..]), AnswersOf(b);
      assert (a + b)[1..] == a[1..] + b && (a + b)[0] == a[0];
      assert AnswersOf(a + b) == head + (rest + last) == (head + rest) + last;
    }
  }

  lemma {:induction false} CallsOfConcat(a: seq<Part>, b: seq<Part>)
    ensures CallsOf(a + b) == CallsOf(a) + CallsOf(b)
  {
    if a == [] {
      assert a + b == b;
    } else {
      CallsOfConcat(a[1..], b);
      var head, rest, last := CallOf(a[0]), CallsOf(a[1..]), CallsOf(b);
      assert (a + b)[1..] == a[1..] + b && (a + b)[0] == a[0];
      assert CallsOf(a + b) == head + (rest + last) == (head + rest) + last;
    }
  }
}
