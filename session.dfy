/**
 * The part of a session (a `JobManager`) that the service and the
 * metering-certificate job use: its identifier, the shared parameter bag,
 * the job stack, the cancellation flag and whether it was started.
 * How a started manager runs its stack is not part of this model.
 */
module Session {
  import opened Wrappers

  /** Keys of the shared parameter bag; `HttpError` is the error code key. */
  datatype ParamKey = HttpError | Named(name: string)

  /** An external observer handed in through the binder interface. */
  datatype Observer = Observer(handle: int)

  /**
   * A content URI: its string form, its scheme and its encoded path (each
   * possibly absent).
   */
  datatype Uri = Uri(text: string, scheme: Option<string>, encodedPath: Option<string>)

  /** `Uri.EMPTY` is the URI whose string form is empty. */
  predicate IsEmptyUri(u: Uri)
  {
    u.text == ""
  }

  /** The only progress type the service's job stacks use. */
  datatype Progress = FinishedWebInitiator

  /** The job variants the service pushes onto a new session's stack. */
  datatype JobSpec =
    | RenewRightsJob(fileUri: Uri)
    | WebInitiatorJob(uri: Uri)
    | DrmFeedbackJob(progress: Progress)

  class JobManager {
    var sessionId: int
    var parameters: map<ParamKey, int>
    var observer: Option<Observer>
    /** The job stack, bottom first: the last element runs next. */
    var stack: seq<JobSpec>
    var hasFinishCallback: bool
    var cancelRequested: bool
    var started: bool

    constructor (sessionId: int, parameters: map<ParamKey, int>, observer: Option<Observer>)
      ensures this.sessionId == sessionId && this.parameters == parameters && this.observer == observer
      ensures stack == [] && !hasFinishCallback && !cancelRequested && !started
    {
      this.sessionId := sessionId;
      this.parameters := parameters;
      this.observer := observer;
      stack := [];
      hasFinishCallback := false;
      cancelRequested := false;
      started := false;
    }

    /** Puts `job` on top of the stack. */
    method PushJob(job: JobSpec)
      modifies this`stack
      ensures stack == old(stack) + [job]
      ensures |stack| == |old(stack)| + 1 && stack[|stack| - 1] == job
    {
      stack := stack + [job];
    }

    /** Stores `value` under `key` in the shared parameter bag. */
    method AddParameter(key: ParamKey, value: int)
      modifies this`parameters
      ensures parameters == old(parameters)[key := value]
    {
      parameters := parameters[key := value];
    }

    /** Asks the session to stop at the next job boundary. */
    method PrepareCancel()
      modifies this`cancelRequested
      ensures cancelRequested
    {
      cancelRequested := true;
    }

    /** Installs the callback that runs when the session reaches a terminal state. */
    method RegisterOnFinishCallback()
      modifies this`hasFinishCallback
      ensures hasFinishCallback
    {
      hasFinishCallback := true;
    }

    /** Launches the session's worker. */
    method Start()
      modifies this`started
      ensures started
    {
      started := true;
    }
  }
}
