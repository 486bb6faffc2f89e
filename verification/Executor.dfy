/** Executing one durable job through the dispatcher, and reducing whatever goes wrong to a
    bounded report that names no secrets (pkg/worker/executor.go). */
module Executor {
  import opened Wrappers
  import opened Text
  import opened JobModel
  import opened Dispatch
  import opened FallbackGraph
  import Engines
  import JobRepository

  datatype ExecutionError = ExecutionError(code: string, message: string, retryable: bool)

  /** A Go error value, as errors.As and errors.Is see it. */
  datatype GoError =
    | Executed(error: ExecutionError)
    | Structured(code: string, message: string)    // a model.A2AError
    | Plain(deadline: bool, text: string)          // anything else

  const DOWNSTREAM_TIMEOUT := ("DOWNSTREAM_TIMEOUT", "downstream agent request timed out")
  const DOWNSTREAM_UNAVAILABLE := ("DOWNSTREAM_UNAVAILABLE", "downstream agent unavailable")

  // In two parts, because the verifier does not evaluate the far end of a longer literal.
  const STREAMING_NOT_SUPPORTED := "streaming jobs are not " + "supported in durable worker"

  /** What a dispatcher error is reported as. */
  const DISPATCH_REPORTS: set<(string, string)> := {
    DOWNSTREAM_TIMEOUT,
    DOWNSTREAM_UNAVAILABLE,
    ("AGENT_NOT_FOUND", "agent not found"),
    ("CAPABILITY_NOT_FOUND", "agent capability not found"),
    ("CYCLE_DETECTED", "fallback cycle detected"),
    ("INVALID_REQUEST", "invalid task request"),
    ("DOWNSTREAM_ERROR", "downstream execution failed"),
    ("INTERNAL_ERROR", "internal execution failure")
  }

  /** What a job is turned down with, before or after its one dispatch. */
  const REJECTIONS: set<(string, string)> := {
    ("NIL_DISPATCHER", "dispatcher is not configured"),
    ("INVALID_JOB", "job cannot be nil"),
    ("INVALID_PAYLOAD", "job request payload is empty"),
    ("INVALID_PAYLOAD", "failed to decode job request payload"),
    ("STREAMING_NOT_SUPPORTED", STREAMING_NOT_SUPPORTED),
    ("TASK_FAILED", "downstream task reported failure")
  }

  /** What can be reported about a failed execution. */
  predicate IsReport(code: string, message: string) {
    (code, message) in DISPATCH_REPORTS || (code, message) in REJECTIONS
  }

  /** The switch over the code of a structured error. */
  function MapCode(code: string, maxAttempts: int): ExecutionError {
    if code == "DOWNSTREAM_TIMEOUT" then
      ExecutionError("DOWNSTREAM_TIMEOUT", "downstream agent request timed out", maxAttempts > 1)
    else if code == "DOWNSTREAM_UNAVAILABLE" then
      ExecutionError("DOWNSTREAM_UNAVAILABLE", "downstream agent unavailable", maxAttempts > 1)
    else if code == "AGENT_NOT_FOUND" then
      ExecutionError("AGENT_NOT_FOUND", "agent not found", false)
    else if code == "CAPABILITY_NOT_FOUND" then
      ExecutionError("CAPABILITY_NOT_FOUND", "agent capability not found", false)
    else if code == "CYCLE_DETECTED" then
      ExecutionError("CYCLE_DETECTED", "fallback cycle detected", false)
    else if code == "INVALID_REQUEST" then
      ExecutionError("INVALID_REQUEST", "invalid task request", false)
    else
      ExecutionError("DOWNSTREAM_ERROR", "downstream execution failed", false)
  }

  function MapDispatcherError(err: GoError, maxAttempts: int): ExecutionError {
    if err.Structured? then MapCode(err.code, maxAttempts)
    else if err.Plain? && err.deadline then
      ExecutionError("DOWNSTREAM_TIMEOUT", "downstream agent request timed out", maxAttempts > 1)
    else
      ExecutionError("INTERNAL_ERROR", "internal execution failure", false)
  }

  /** Trimmed, then cut to a number of characters. */
  function BoundString(s: string, max: nat): (t: string)
    ensures t <= TrimSpace(s) && |t| == if |TrimSpace(s)| <= max then |TrimSpace(s)| else max
  {
    var trimmed := TrimSpace(s);
    if |trimmed| <= max then trimmed else trimmed[..max]
  }

  function SanitizeFailure(err: Option<GoError>, maxAttempts: int): ExecutionError {
    if err.None? then ExecutionError("", "", false)
    else
      var e := if err.value.Executed? then err.value.error else MapDispatcherError(err.value, maxAttempts);
      ExecutionError(
        BoundString(e.code, MAX_FAILURE_CODE_LENGTH),
        BoundString(e.message, MAX_FAILURE_MESSAGE_LENGTH),
        e.retryable && maxAttempts > 1)
  }

  /** Cutting never makes a visible string blank. */
  lemma BoundStringKeepsContent(s: string, max: nat)
    requires max > 0
    ensures Blank(BoundString(s, max)) <==> Blank(s)
  {
    var t := BoundString(s, max);
    if !Blank(s) {
      assert t[0] == TrimSpace(s)[0];
    }
  }

  /** The cut comes after the trim, so a cut string can end in a space: bounding again changes
      it exactly when the last character kept is one. */
  lemma BoundStringTwice(s: string, max: nat)
    ensures var t := BoundString(s, max);
            BoundString(t, max) == t <==> |TrimSpace(s)| <= max || max == 0 || !IsSpace(TrimSpace(s)[max - 1])
  {
    var full, t := TrimSpace(s), BoundString(s, max);
    if t != "" {
      assert t[0] == full[0];
      if IsSpace(t[|t| - 1]) {
        assert TrimSpace(t) == TrimSpace(t[..|t| - 1]);
      } else {
        TrimmedStaysTrimmed(t);
      }
    }
  }

  /** Bounding is not idempotent. */
  lemma BoundStringTwiceDiffers()
    ensures BoundString("a b", 2) == "a " && BoundString("a ", 2) == "a"
  {
    TrimmedStaysTrimmed("a b");
    assert "a b"[..2] == "a ";
    TrimmedStaysTrimmed("a");
    assert "a "[..1] == "a";
  }

  /** A report depends on the kind of error only: no text of a downstream or library error
      reaches it. */
  lemma ReportHidesText(a: GoError, b: GoError, maxAttempts: int)
    requires !a.Executed? && !b.Executed?
    requires a.Structured? <==> b.Structured?
    requires if a.Structured? then a.code == b.code else a.deadline == b.deadline
    ensures SanitizeFailure(Some(a), maxAttempts) == SanitizeFailure(Some(b), maxAttempts)
  {
  }

  lemma MappedIsReport(err: GoError, maxAttempts: int)
    ensures var e := MapDispatcherError(err, maxAttempts);
            && IsReport(e.code, e.message)
            && (e.retryable <==> maxAttempts > 1 && e.code in {DOWNSTREAM_TIMEOUT.0, DOWNSTREAM_UNAVAILABLE.0})
    ensures err.Structured? ==>
              MapDispatcherError(err, maxAttempts).code
              == if err.code in {"DOWNSTREAM_TIMEOUT", "DOWNSTREAM_UNAVAILABLE", "AGENT_NOT_FOUND",
                                 "CAPABILITY_NOT_FOUND", "CYCLE_DETECTED", "INVALID_REQUEST"}
                 then err.code else "DOWNSTREAM_ERROR"
    ensures !err.Structured? ==>
              MapDispatcherError(err, maxAttempts).code
              == if err.Plain? && err.deadline then "DOWNSTREAM_TIMEOUT" else "INTERNAL_ERROR"
  {
  }

  lemma DispatchReportIsKept(code: string, message: string)
    requires (code, message) in DISPATCH_REPORTS
    ensures BoundString(code, MAX_FAILURE_CODE_LENGTH) == code
    ensures BoundString(message, MAX_FAILURE_MESSAGE_LENGTH) == message
  {
    TrimmedStaysTrimmed(code);
    TrimmedStaysTrimmed(message);
  }

  lemma RejectionIsKept(code: string, message: string)
    requires (code, message) in REJECTIONS
    ensures BoundString(code, MAX_FAILURE_CODE_LENGTH) == code
    ensures BoundString(message, MAX_FAILURE_MESSAGE_LENGTH) == message
  {
    TrimmedStaysTrimmed(code);
    TrimmedStaysTrimmed(message);
  }

  /** A report is stored as it is. */
  lemma ReportIsKept(code: string, message: string)
    requires IsReport(code, message)
    ensures BoundString(code, MAX_FAILURE_CODE_LENGTH) == code
    ensures BoundString(message, MAX_FAILURE_MESSAGE_LENGTH) == message
  {
    if (code, message) in DISPATCH_REPORTS {
      DispatchReportIsKept(code, message);
    } else {
      RejectionIsKept(code, message);
    }
  }

  /** Every report fits the ledger's bounds, and asks for a retry only if there can be one. */
  lemma ReportIsBounded(err: GoError, maxAttempts: int)
    ensures var e := SanitizeFailure(Some(err), maxAttempts);
            && Engines.Bounded(Engines.Failure(e.code, e.message, e.retryable))
            && (e.retryable ==> maxAttempts > 1)
            && (!err.Executed? ==> e == MapDispatcherError(err, maxAttempts) && IsReport(e.code, e.message))
  {
    if !err.Executed? {
      var e := MapDispatcherError(err, maxAttempts);
      MappedIsReport(err, maxAttempts);
      ReportIsKept(e.code, e.message);
    }
  }

  // ---- Execute

  function CodeOf(e: DispatchError): string {
    match e
    case InvalidRequest => "INVALID_REQUEST"
    case AgentNotFound(_) => "AGENT_NOT_FOUND"
    case CapabilityNotFound(_) => "CAPABILITY_NOT_FOUND"
    case CycleDetected(_) => "CYCLE_DETECTED"
    case DownstreamTimeout(_) => "DOWNSTREAM_TIMEOUT"
    case DownstreamUnavailable(_) => "DOWNSTREAM_UNAVAILABLE"
    case ContextDone => "CONTEXT"
  }

  function Rejection(code: string, message: string): GoError {
    Executed(ExecutionError(code, message, false))
  }

  /** The decoded request with its identity and routing taken from the job's columns. */
  function Trusted(req: TaskRequest, job: Snapshot): TaskRequest {
    req.(id := job.key.id,
         agentId := if job.job.agentId.Some? then job.job.agentId.value else "",
         requiredCapability := if job.job.requiredCapability.Some? then job.job.requiredCapability.value else "")
  }

  /** Errors that an execution ends with: reports from the fixed list, retryable ones only for a
      downstream that did not answer, or the error of a context that is done. */
  ghost predicate Reportable(err: GoError, maxAttempts: int) {
    match err
    case Executed(e) =>
      && IsReport(e.code, e.message)
      && (e.retryable ==> maxAttempts > 1 && e.code in {DOWNSTREAM_TIMEOUT.0, DOWNSTREAM_UNAVAILABLE.0})
    case Structured(_, _) => false
    case Plain(_, _) => true
  }

  class DispatcherExecutor {
    const disp: Dispatcher?
    /** json.Unmarshal of a request payload */
    const decode: string -> Option<TaskRequest>

    constructor (disp: Dispatcher?, decode: string -> Option<TaskRequest>)
      ensures this.disp == disp && this.decode == decode
    {
      this.disp, this.decode := disp, decode;
    }

    /** The request a job leads to, unless the job is turned down before any dispatch. */
    function Accepted(job: Option<Snapshot>): Option<TaskRequest> {
      if disp == null || job.None? || job.value.job.request == "" then None
      else
        var req := decode(job.value.job.request);
        if req.None? || req.value.stream then None else Some(Trusted(req.value, job.value))
    }

    /** Some configured agent is what the job's own columns resolve to. */
    ghost predicate Resolves(job: Option<Snapshot>) {
      disp != null && exists a :: ResolvesTo(disp.agents, Accepted(job), a)
    }

    /** The checks before the dispatch: the request that the job leads to, or why there is none. */
    method Accept(job: Option<Snapshot>) returns (r: Result<TaskRequest, GoError>)
      ensures Accepted(job) == if r.Ok? then Some(r.value) else None
      ensures r.Ok? ==>
                && disp != null && job.Some? && decode(job.value.job.request).Some?
                && !decode(job.value.job.request).value.stream
      ensures r.Err? ==>
                && r.error.Executed? && !r.error.error.retryable && IsReport(r.error.error.code, r.error.error.message)
                && r.error.error.code == if disp == null then "NIL_DISPATCHER"
                                         else if job.None? then "INVALID_JOB"
                                         else if job.value.job.request == "" || decode(job.value.job.request).None?
                                         then "INVALID_PAYLOAD"
                                         else "STREAMING_NOT_SUPPORTED"
    {
      if disp == null {
        return Err(Rejection("NIL_DISPATCHER", "dispatcher is not configured"));
      }
      if job.None? {
        return Err(Rejection("INVALID_JOB", "job cannot be nil"));
      }
      if job.value.job.request == "" {
        return Err(Rejection("INVALID_PAYLOAD", "job request payload is empty"));
      }
      var decoded := decode(job.value.job.request);
      if decoded.None? {
        return Err(Rejection("INVALID_PAYLOAD", "failed to decode job request payload"));
      }
      if decoded.value.stream {
        return Err(Rejection("STREAMING_NOT_SUPPORTED", STREAMING_NOT_SUPPORTED));
      }
      return Ok(Trusted(decoded.value, job.value));
    }

    /** The report on a dispatch that failed. */
    method Report(e: DispatchError, maxAttempts: int) returns (report: ExecutionError)
      requires !e.ContextDone?
      ensures IsReport(report.code, report.message) && report.code == CodeOf(e)
      ensures report.retryable <==> maxAttempts > 1 && (e.DownstreamTimeout? || e.DownstreamUnavailable?)
    {
      var err := Structured(CodeOf(e), "");
      MappedIsReport(err, maxAttempts);
      report := MapDispatcherError(err, maxAttempts);
    }

    /** `canceled` is the error of the context, should it be done. A job that is turned down
        sends nothing; any other sends at most one request, to the agent that its own columns
        name: exactly one if there is such an agent, its adapter is registered and the request
        can be translated. It succeeds exactly if that request is answered with a task that did
        not fail. */
    method Execute(job: Option<Snapshot>, canceled: GoError)
      returns (r: Result<Response, GoError>, ghost start: Option<Agent>, ghost made: seq<Call>)
      requires disp != null ==> disp.Valid()
      requires canceled.Plain?
      modifies disp
      ensures disp != null ==>
                && disp.visited == old(disp.visited) && disp.cycleHits == old(disp.cycleHits)
                && disp.requests == old(disp.requests) + Sent(made) <= old(disp.requests) + 1
      ensures Accepted(job).None? ==> r.Err? && r.error.Executed? && !r.error.error.retryable && start.None?
      ensures Accepted(job).None? ==>
                r.error.error.code == if disp == null then "NIL_DISPATCHER"
                                      else if job.None? then "INVALID_JOB"
                                      else if job.value.job.request == "" || decode(job.value.job.request).None?
                                      then "INVALID_PAYLOAD"
                                      else "STREAMING_NOT_SUPPORTED"
      ensures Accepted(job).Some? ==>
                disp != null && job.Some? && decode(job.value.job.request).Some? && !decode(job.value.job.request).value.stream
      ensures Accepted(job).Some? && start.None? && r.Err? && r.error.Executed? ==>
                var asked := job.value.job;
                r.error.error.code == if asked.agentId.Some? && asked.agentId.value != "" then "AGENT_NOT_FOUND"
                                      else if asked.requiredCapability.Some? && asked.requiredCapability.value != ""
                                      then "CAPABILITY_NOT_FOUND" else "INVALID_REQUEST"
      ensures start.Some? ==>
                var asked := job.value.job;
                if asked.agentId.Some? && asked.agentId.value != "" then start.value.id == asked.agentId.value
                else asked.requiredCapability.Some? && Offers(start.value, asked.requiredCapability.value)
      ensures start.None? ==> made == [] && r.Err?
      ensures start.Some? <==> Resolves(job)
      ensures start.Some? ==>
                && ResolvesTo(disp.agents, Accepted(job), start.value) && |made| <= 1
                && (made == [] <==> start.value.adapterType !in disp.adapters)
                && (made != [] ==> made[0].attempt == disp.env.attempt(made[0].at, start.value.id))
                && (r.Ok? <==> made != [] && made[0].attempt.Answered? && !made[0].attempt.response.failed)
                && (r.Ok? ==> r.value == Filled(made[0].attempt.response, job.value.key.id, disp.env.taskId, start.value))
      ensures Sent(made) == 1 <==>
                start.Some? && start.value.adapterType in disp.adapters && !made[0].attempt.TranslateFailed?
      ensures r.Err? ==> Reportable(r.error, if job.Some? then job.value.job.maxAttempts else 0)
      ensures r.Err? && r.error.Plain? ==> r.error == canceled && disp != null && !disp.env.live(disp.clock)
      ensures start.Some? && r.Err? && r.error.Executed? ==>
                && r.error.error.code == (if made != [] && made[0].attempt.Answered? then "TASK_FAILED"
                                          else if EndedLate(made) then DOWNSTREAM_TIMEOUT.0
                                          else DOWNSTREAM_UNAVAILABLE.0)
                && (r.error.error.retryable <==> r.error.error.code != "TASK_FAILED" && job.value.job.maxAttempts > 1)
    {
      start, made := None, [];
      var accepted := Accept(job);
      if accepted.Err? {
        return Err(accepted.error), None, [];
      }
      var req := accepted.value;
      var dispatched;
      dispatched, start, made := disp.DispatchSingleAttempt(Some(req));
      if dispatched.Err? {
        var live := disp.ContextLive();
        if !live {
          return Err(canceled), start, made;
        }
        var report := Report(dispatched.error, job.value.job.maxAttempts);
        return Err(Executed(report)), start, made;
      }
      if dispatched.value.failed {
        return Err(Rejection("TASK_FAILED", "downstream task reported failure")), start, made;
      }
      return Ok(dispatched.value), start, made;
    }
  }

  /** What a worker writes about an execution that came back with an error: the ledger never
      refuses it for its content, and asks for another attempt only on a downstream that did
      not answer. */
  lemma FailureIsAccepted(err: GoError, fence: Fence, maxAttempts: int, backoff: int)
    requires Reportable(err, maxAttempts) && ValidFence(fence) && ValidBackoff(backoff)
    ensures var e := SanitizeFailure(Some(err), maxAttempts);
            && JobRepository.ValidFail(JobRepository.FailInput(fence, e.code, e.message, e.retryable, backoff))
            && IsReport(e.code, e.message)
            && (e.retryable ==> maxAttempts > 1 && e.code in {DOWNSTREAM_TIMEOUT.0, DOWNSTREAM_UNAVAILABLE.0})
            && (err.Executed? ==> e == err.error)
  {
    ReportIsBounded(err, maxAttempts);
    if err.Executed? {
      ReportIsKept(err.error.code, err.error.message);
    } else {
      MappedIsReport(err, maxAttempts);
    }
  }
}
