/** Stream events and the chain of emitters they pass through (pkg/server/stream_emitter.go,
    pkg/dispatcher/dispatcher.go). */
module StreamEvents {
  import opened Wrappers

  datatype Event =
    | TaskStarted(agentId: string)
    | TokenDelta(delta: string)
    | StepProgress(step: string, data: string)
    | TaskCompleted
    | TaskError(message: string, agent: Option<string>)
  {
    predicate Terminal() {
      TaskCompleted? || TaskError?
    }
  }

  /** The connection to the client: everything it was handed, in order. The i-th event reaches
      the client if the connection accepts it. */
  class SseWriter {
    const accepts: nat -> bool
    var sent: seq<Event>

    constructor (accepts: nat -> bool)
      ensures this.accepts == accepts && sent == []
    {
      this.accepts, sent := accepts, [];
    }

    method Emit(e: Event) returns (ok: bool)
      modifies this
      ensures sent == old(sent) + [e] && ok == accepts(|old(sent)|)
    {
      ok := accepts(|sent|);
      sent := sent + [e];
    }
  }

  /** The handlers' wrapper. */
  class ErrorTrackingEmitter {
    const inner: SseWriter
    var errorEmitted: bool

    constructor (inner: SseWriter)
      ensures this.inner == inner && !errorEmitted
    {
      this.inner, errorEmitted := inner, false;
    }

    method Emit(e: Event) returns (ok: bool)
      modifies this, inner
      ensures inner.sent == old(inner.sent) + [e] && ok == inner.accepts(|old(inner.sent)|)
      ensures errorEmitted == (old(errorEmitted) || e.TaskError?)
    {
      if e.TaskError? {
        errorEmitted := true;
      }
      ok := inner.Emit(e);
    }
  }

  /** The dispatcher's wrapper. */
  class TrackingEmitter {
    const inner: ErrorTrackingEmitter
    var hasEmitted: bool

    constructor (inner: ErrorTrackingEmitter)
      ensures this.inner == inner && !hasEmitted
    {
      this.inner, hasEmitted := inner, false;
    }

    method Emit(e: Event) returns (ok: bool)
      modifies this, inner, inner.inner
      ensures hasEmitted && inner.inner.sent == old(inner.inner.sent) + [e]
      ensures ok == inner.inner.accepts(|old(inner.inner.sent)|)
      ensures inner.errorEmitted == (old(inner.errorEmitted) || e.TaskError?)
    {
      hasEmitted := true;
      ok := inner.Emit(e);
    }
  }
}
