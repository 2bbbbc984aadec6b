/**
 * The license service's entry points: the start-command router, which
 * turns an intent into notifications, new sessions or a database purge, and
 * the binder interface, which creates, rebinds and cancels sessions through
 * a registry that maps session ids to their managers.
 */
module LicenseService {
  import opened Wrappers
  import opened Session
  import opened JobStore

  /** `Service.START_NOT_STICKY`. */
  const START_NOT_STICKY: int := 2

  /**
   * Intent actions. The first two stand for the service's own action names,
   * whose exact strings do not matter here; the last two are the activity's
   * class name and the platform's boot-completed action.
   */
  const RENEW_ACTION: string := "INTENT_ACTION_DRM_SERVICE_RENEW"
  const WEB_INITIATOR_ACTION: string := "INTENT_ACTION_DRM_SERVICE_HANDLE_WEB_INITIATOR"
  const LICENSE_ACTIVITY_ACTION: string := "com.sonyericsson.android.drm.drmlicenseservice.DrmLicenseActivity"
  const BOOT_COMPLETED_ACTION: string := "android.intent.action.BOOT_COMPLETED"

  /** The MIME type of a PlayReady web initiator. */
  const INITIATOR_MIME: string := "application/vnd.ms-playready.initiator+xml"

  /** An intent: its action, its MIME type and its data URI, each possibly null. */
  datatype Intent = Intent(action: Option<string>, mimeType: Option<string>, data: Option<Uri>)

  /** The info and error event types the service reports. */
  datatype InfoEvent = TypeNotSupported | TypeRightsNotInstalled | TypeWaitForRights

  /** What handling a start command does, in order. */
  datatype Effect =
    | SendInfoResult(event: InfoEvent, path: Option<string>)
    | StartSession(stack: seq<JobSpec>)
    | PurgeJobDatabase
    | StopService

  datatype StartOutcome = StartOutcome(effects: seq<Effect>, result: int)

  // ----- case-insensitive comparison (ASCII letters only) -----

  function LowerAscii(c: char): char
  {
    if 'A' <= c <= 'Z' then (c as int + 32) as char else c
  }

  function UpperAscii(c: char): char
  {
    if 'a' <= c <= 'z' then (c as int - 32) as char else c
  }

  /** `String.equalsIgnoreCase`, folding ASCII letters. */
  predicate EqualsIgnoreCase(a: string, b: string)
    ensures a == b ==> EqualsIgnoreCase(a, b)
    ensures EqualsIgnoreCase(a, b) ==> |a| == |b|
  {
    |a| == |b| && forall i :: 0 <= i < |a| ==> LowerAscii(a[i]) == LowerAscii(b[i])
  }

  /** The string with its ASCII letters in upper case. */
  function ToUpperAscii(s: string): (r: string)
    ensures |r| == |s| && EqualsIgnoreCase(r, s)
    ensures forall i :: 0 <= i < |s| ==> r[i] == UpperAscii(s[i])
  {
    seq(|s|, i requires 0 <= i < |s| => UpperAscii(s[i]))
  }

  // ----- views of an effect list -----

  /** The job stacks of the sessions an effect list starts, in order. */
  function StartedStacks(effects: seq<Effect>): (stacks: seq<seq<JobSpec>>)
    ensures |stacks| <= |effects|
    ensures forall s :: s in stacks <==> StartSession(s) in effects
  {
    if effects == [] then []
    else (if effects[0].StartSession? then [effects[0].stack] else []) + StartedStacks(effects[1..])
  }

  /** The events an effect list reports, in order. */
  function Events(effects: seq<Effect>): (events: seq<InfoEvent>)
    ensures forall e :: e in effects && e.SendInfoResult? ==> e.event in events
    ensures forall ev :: ev in events ==> exists e :: e in effects && e.SendInfoResult? && e.event == ev
    ensures |events| <= |effects|
  {
    if effects == [] then []
    else (if effects[0].SendInfoResult? then [effects[0].event] else []) + Events(effects[1..])
  }

  // ----- the intent path -----

  /** A renew intent needs a data URI that is not `Uri.EMPTY`. */
  predicate HasFileUri(intent: Intent)
  {
    intent.data.Some? && !IsEmptyUri(intent.data.value)
  }

  /**
   * A web initiator needs exactly the initiator MIME type (compared with
   * case) and a data URI that has a scheme.
   */
  predicate IsWebInitiator(intent: Intent)
  {
    intent.mimeType == Some(INITIATOR_MIME) && intent.data.Some? && intent.data.value.scheme.Some?
  }

  /** The intent path of `renewRights`. */
  function RenewRightsEffects(intent: Intent): (effects: seq<Effect>)
    // one renew session exactly when the intent has a non-empty URI, none otherwise
    ensures StartedStacks(effects) == (if HasFileUri(intent) then [[RenewRightsJob(intent.data.value)]] else [])
    ensures Events(effects) == (if HasFileUri(intent) then [TypeWaitForRights] else [TypeRightsNotInstalled])
    // the user is told before the session starts, with the file's path
    ensures effects[0] == (if HasFileUri(intent) then SendInfoResult(TypeWaitForRights, intent.data.value.encodedPath)
                           else SendInfoResult(TypeRightsNotInstalled, None))
    ensures PurgeJobDatabase !in effects && StopService !in effects
  {
    if HasFileUri(intent) then
      [SendInfoResult(TypeWaitForRights, intent.data.value.encodedPath), StartSession([RenewRightsJob(intent.data.value)])]
    else
      [SendInfoResult(TypeRightsNotInstalled, None)]
  }

  /** The intent path of `handleWebInitiator`. */
  function WebInitiatorEffects(intent: Intent): (effects: seq<Effect>)
    ensures StartedStacks(effects) == (if IsWebInitiator(intent) then [[WebInitiatorJob(intent.data.value)]] else [])
    ensures Events(effects) == [] && PurgeJobDatabase !in effects && StopService !in effects
    ensures !IsWebInitiator(intent) ==> effects == []
  {
    if IsWebInitiator(intent) then [StartSession([WebInitiatorJob(intent.data.value)])] else []
  }

  /** The routing of `onStartCommand`. */
  function OnStartCommand(intent: Option<Intent>): (r: StartOutcome)
    ensures r.result == START_NOT_STICKY
    ensures intent.None? ==> r.effects == [SendInfoResult(TypeNotSupported, None)]
    ensures intent.Some? && intent.value.action.None? ==> r.effects == [SendInfoResult(TypeRightsNotInstalled, None)]
    ensures intent.Some? && intent.value.action.Some? ==>
              var action := intent.value.action.value;
              && (action == RENEW_ACTION ==> r.effects == RenewRightsEffects(intent.value))
              && (action == WEB_INITIATOR_ACTION ==> r.effects == WebInitiatorEffects(intent.value))
              && (action == LICENSE_ACTIVITY_ACTION ==>
                    r.effects == (if intent.value.mimeType.Some? && EqualsIgnoreCase(intent.value.mimeType.value, INITIATOR_MIME)
                                  then WebInitiatorEffects(intent.value) else []))
              && (action == BOOT_COMPLETED_ACTION ==> r.effects == [PurgeJobDatabase, StopService])
              && (action !in {RENEW_ACTION, WEB_INITIATOR_ACTION, LICENSE_ACTIVITY_ACTION, BOOT_COMPLETED_ACTION} ==> r.effects == [])
  {
    var effects :=
      if intent.None? then
        [SendInfoResult(TypeNotSupported, None)]
      else if intent.value.action.None? then
        [SendInfoResult(TypeRightsNotInstalled, None)]
      else
        var action := intent.value.action.value;
        if action == RENEW_ACTION then RenewRightsEffects(intent.value)
        else if action == WEB_INITIATOR_ACTION then WebInitiatorEffects(intent.value)
        else if action == LICENSE_ACTIVITY_ACTION then
          var mime := intent.value.mimeType;
          if mime.Some? && EqualsIgnoreCase(mime.value, INITIATOR_MIME) then WebInitiatorEffects(intent.value) else []
        else if action == BOOT_COMPLETED_ACTION then [PurgeJobDatabase, StopService]
        else [];
    StartOutcome(effects, START_NOT_STICKY)
  }

  /** A start command starts at most one session. */
  lemma AtMostOneSessionPerCommand(intent: Option<Intent>)
    ensures |StartedStacks(OnStartCommand(intent).effects)| <= 1
  {
    var effects := OnStartCommand(intent).effects;
    if intent.Some? && intent.value.action == Some(BOOT_COMPLETED_ACTION) {
      assert effects[1..] == [StopService];
    }
  }

  /**
   * Every session a start command starts is justified by its intent: a renew
   * session by a renew intent with a non-empty URI, a web-initiator session
   * by a web-initiator or activity intent carrying an initiator with a scheme.
   */
  lemma StartedSessionsAreJustified(intent: Option<Intent>, stack: seq<JobSpec>)
    requires stack in StartedStacks(OnStartCommand(intent).effects)
    ensures intent.Some? && intent.value.action.Some?
    ensures var i := intent.value;
            || (i.action == Some(RENEW_ACTION) && HasFileUri(i) && stack == [RenewRightsJob(i.data.value)])
            || (i.action in {Some(WEB_INITIATOR_ACTION), Some(LICENSE_ACTIVITY_ACTION)} && IsWebInitiator(i)
                && stack == [WebInitiatorJob(i.data.value)])
  {
  }

  /** Only the boot-completed action purges the job database, and it starts no session. */
  lemma PurgeOnlyOnBoot(intent: Option<Intent>)
    ensures PurgeJobDatabase in OnStartCommand(intent).effects <==>
              intent.Some? && intent.value.action == Some(BOOT_COMPLETED_ACTION)
    ensures PurgeJobDatabase in OnStartCommand(intent).effects ==> StartedStacks(OnStartCommand(intent).effects) == []
  {
    var effects := OnStartCommand(intent).effects;
    if intent.Some? && intent.value.action == Some(BOOT_COMPLETED_ACTION) {
      assert effects[1..] == [StopService];
    }
  }

  /**
   * The activity path accepts the initiator MIME type in any letter case,
   * but the web-initiator path it hands over to compares with case: an
   * initiator whose type differs from the constant only in case is routed
   * on and then starts nothing.
   */
  lemma ActivityInitiatorInOtherCaseIsDropped(mime: string, uri: Uri)
    requires EqualsIgnoreCase(mime, INITIATOR_MIME) && mime != INITIATOR_MIME
    ensures OnStartCommand(Some(Intent(Some(LICENSE_ACTIVITY_ACTION), Some(mime), Some(uri)))).effects == []
  {
  }

  /** Such a type exists: the constant in upper case. */
  lemma UpperCaseInitiatorDiffers()
    ensures EqualsIgnoreCase(ToUpperAscii(INITIATOR_MIME), INITIATOR_MIME)
    ensures ToUpperAscii(INITIATOR_MIME) != INITIATOR_MIME
  {
    assert ToUpperAscii(INITIATOR_MIME)[0] == 'A' != INITIATOR_MIME[0];
  }

  // ----- the session registry -----

  /** The registry operations the binder performs. */
  datatype RegistryEvent =
    | Register(id: int, manager: JobManager)
    | Unregister(id: int)
    | Cancel(id: int)

  /** One registry operation: put, remove, or a lookup that leaves the map as it is. */
  function Apply(jobs: map<int, JobManager>, e: RegistryEvent): map<int, JobManager>
  {
    match e
    case Register(id, m) => jobs[id := m]
    case Unregister(id) => jobs - {id}
    case Cancel(_) => jobs
  }

  /** The registry after a history of operations, oldest first. */
  function Replay(jobs: map<int, JobManager>, events: seq<RegistryEvent>): map<int, JobManager>
    decreases |events|
  {
    if events == [] then jobs else Replay(Apply(jobs, events[0]), events[1..])
  }

  function WithoutCancels(events: seq<RegistryEvent>): (r: seq<RegistryEvent>)
    ensures forall e :: e in r ==> !e.Cancel? && e in events
  {
    if events == [] then []
    else (if events[0].Cancel? then [] else [events[0]]) + WithoutCancels(events[1..])
  }

  /** Whether one operation puts (true) or removes (false) `id`, if it touches it at all. */
  function Touch(e: RegistryEvent, id: int): Option<bool>
  {
    match e
    case Register(i, _) => if i == id then Some(true) else None
    case Unregister(i) => if i == id then Some(false) else None
    case Cancel(_) => None
  }

  /** What the last operation of a history that touches `id` did to it. */
  function LastTouch(events: seq<RegistryEvent>, id: int): Option<bool>
  {
    if events == [] then None
    else
      var later := LastTouch(events[1..], id);
      if later.Some? then later else Touch(events[0], id)
  }

  /** Cancelling never changes the registry, whatever else happens around it. */
  lemma {:induction false} CancelsLeaveRegistryUnchanged(jobs: map<int, JobManager>, events: seq<RegistryEvent>)
    ensures Replay(jobs, events) == Replay(jobs, WithoutCancels(events))
    decreases |events|
  {
    if events != [] {
      CancelsLeaveRegistryUnchanged(Apply(jobs, events[0]), events[1..]);
      var rest := WithoutCancels(events[1..]);
      if events[0].Cancel? {
        assert WithoutCancels(events) == rest;
      } else {
        assert WithoutCancels(events) == [events[0]] + rest;
        assert ([events[0]] + rest)[0] == events[0] && ([events[0]] + rest)[1..] == rest;
      }
    }
  }

  /**
   * An id is registered after a history exactly when the last operation
   * touching it was a put, or nothing touched it and it was registered before.
   */
  lemma {:induction false} RegisteredAfterReplay(jobs: map<int, JobManager>, events: seq<RegistryEvent>, id: int)
    ensures id in Replay(jobs, events) <==>
              (if LastTouch(events, id).Some? then LastTouch(events, id).value else id in jobs)
    decreases |events|
  {
    if events != [] {
      RegisteredAfterReplay(Apply(jobs, events[0]), events[1..], id);
    }
  }

  /** Replaying one more operation applies it to the registry so far. */
  lemma {:induction false} ReplayAppend(jobs: map<int, JobManager>, events: seq<RegistryEvent>, e: RegistryEvent)
    ensures Replay(jobs, events + [e]) == Apply(Replay(jobs, events), e)
    decreases |events|
  {
    if events == [] {
      assert [] + [e] == [e];
    } else {
      assert (events + [e])[1..] == events[1..] + [e];
      ReplayAppend(Apply(jobs, events[0]), events[1..], e);
    }
  }

  /**
   * Once a session has finished, a cancel for it is refused, and the
   * sessions it did not touch are registered as before.
   */
  lemma CancelAfterFinishIsRefused(jobs: map<int, JobManager>, events: seq<RegistryEvent>, id: int)
    ensures id !in Replay(jobs, events + [Unregister(id), Cancel(id)])
    ensures forall other :: other != id && other in Replay(jobs, events) ==>
              other in Replay(jobs, events + [Unregister(id), Cancel(id)])
              && Replay(jobs, events + [Unregister(id), Cancel(id)])[other] == Replay(jobs, events)[other]
  {
    ReplayAppend(jobs, events, Unregister(id));
    ReplayAppend(jobs, events + [Unregister(id)], Cancel(id));
    assert events + [Unregister(id), Cancel(id)] == events + [Unregister(id)] + [Cancel(id)];
  }

  // ----- the service object -----

  class DrmLicenseService {
    /** Active sessions by id. */
    var jobs: map<int, JobManager>
    const jobDb: JobDatabase

    /**
     * Every registered manager is filed under its own session id and has
     * the finish callback that removes that entry.
     */
    ghost predicate Valid()
      reads this, jobs.Values
    {
      forall id :: id in jobs ==> jobs[id].sessionId == id && jobs[id].hasFinishCallback
    }

    constructor (jobDb: JobDatabase)
      ensures Valid() && jobs == map[] && this.jobDb == jobDb
    {
      jobs := map[];
      this.jobDb := jobDb;
    }

    /**
     * `onStartCommand` with its database effect carried out: the job
     * database is emptied exactly when the routing asks for a purge.
     */
    method StartCommand(intent: Option<Intent>) returns (result: int)
      modifies jobDb`rows
      ensures result == OnStartCommand(intent).result
      ensures PurgeJobDatabase in OnStartCommand(intent).effects ==> jobDb.rows == map[]
      ensures PurgeJobDatabase !in OnStartCommand(intent).effects ==> jobDb.rows == old(jobDb.rows)
    {
      var outcome := OnStartCommand(intent);
      if PurgeJobDatabase in outcome.effects {
        jobDb.PurgeDatabase();
      }
      result := outcome.result;
    }

    /**
     * Binder `handleWebInitiator`: a new session whose stack holds the
     * web-initiator job on top of the feedback job. `newSessionId` is the id
     * the new manager chooses for itself.
     */
    method HandleWebInitiator(uri: Option<Uri>, parameters: map<ParamKey, int>, callback: Option<Observer>,
                              newSessionId: int) returns (sessionId: int)
      requires Valid()
      modifies this`jobs
      ensures Valid()
      ensures uri.None? ==> sessionId == 0 && jobs == old(jobs)
      ensures uri.Some? ==>
                && sessionId == newSessionId && sessionId in jobs && fresh(jobs[sessionId])
                && jobs == Apply(old(jobs), Register(sessionId, jobs[sessionId]))
                && jobs[sessionId].sessionId == sessionId
                && jobs[sessionId].stack == [DrmFeedbackJob(FinishedWebInitiator), WebInitiatorJob(uri.value)]
                && jobs[sessionId].parameters == parameters && jobs[sessionId].observer == callback
                && jobs[sessionId].hasFinishCallback && jobs[sessionId].started && !jobs[sessionId].cancelRequested
    {
      if uri.None? {
        return 0;
      }
      var jm := new JobManager(newSessionId, parameters, callback);
      jm.PushJob(DrmFeedbackJob(FinishedWebInitiator));
      jm.PushJob(WebInitiatorJob(uri.value));
      jobs := jobs[jm.sessionId := jm];
      jm.RegisterOnFinishCallback();
      jm.Start();
      sessionId := jm.sessionId;
    }

    /** Binder `renewRights`: a new session with one renew job. */
    method RenewRights(fileUri: Option<Uri>, parameters: map<ParamKey, int>, callback: Option<Observer>,
                       newSessionId: int) returns (sessionId: int)
      requires Valid()
      modifies this`jobs
      ensures Valid()
      ensures fileUri.None? ==> sessionId == 0 && jobs == old(jobs)
      ensures fileUri.Some? ==>
                && sessionId == newSessionId && sessionId in jobs && fresh(jobs[sessionId])
                && jobs == Apply(old(jobs), Register(sessionId, jobs[sessionId]))
                && jobs[sessionId].sessionId == sessionId
                && jobs[sessionId].stack == [RenewRightsJob(fileUri.value)]
                && jobs[sessionId].parameters == parameters && jobs[sessionId].observer == callback
                && jobs[sessionId].hasFinishCallback && jobs[sessionId].started && !jobs[sessionId].cancelRequested
    {
      if fileUri.None? {
        return 0;
      }
      var jm := new JobManager(newSessionId, parameters, callback);
      jm.PushJob(RenewRightsJob(fileUri.value));
      jobs := jobs[jm.sessionId := jm];
      jm.RegisterOnFinishCallback();
      jm.Start();
      sessionId := jm.sessionId;
    }

    /**
     * Whether stored jobs were put back on `jm`'s stack; `restoredCount` is
     * the number the job database reports having added.
     */
    method ReadInStoredJobs(jm: JobManager?, sessionId: int, restoredCount: int) returns (jobsAdded: bool)
      ensures jobsAdded <==> jm != null && restoredCount > 0
    {
      jobsAdded := false;
      if jm != null {
        if restoredCount > 0 {
          jobsAdded := true;
        }
      }
    }

    /**
     * Binder `setCallbackListener`: rebuilds a stored session under
     * `sessionId` with a new observer. `restoredCount` is the number of stored
     * jobs the database puts back, and `reported` the answer it posts.
     */
    method SetCallbackListener(callback: Option<Observer>, sessionId: int, parameters: map<ParamKey, int>,
                               restoredCount: int, reported: bool) returns (isOk: bool)
      requires Valid()
      modifies this`jobs
      ensures Valid()
      ensures callback.None? || sessionId == 0 ==> !isOk && jobs == old(jobs)
      ensures callback.Some? && sessionId != 0 ==> isOk == reported
      ensures restoredCount <= 0 ==> jobs == old(jobs)
      ensures callback.Some? && sessionId != 0 && restoredCount > 0 ==>
                && sessionId in jobs && fresh(jobs[sessionId])
                && jobs == Apply(old(jobs), Register(sessionId, jobs[sessionId]))
                && jobs[sessionId].sessionId == sessionId
                && jobs[sessionId].parameters == parameters && jobs[sessionId].observer == callback
                && jobs[sessionId].hasFinishCallback && jobs[sessionId].started
    {
      isOk := false;
      if callback.Some? && sessionId != 0 {
        var jm := new JobManager(sessionId, parameters, callback);
        jm.RegisterOnFinishCallback();
        var added := ReadInStoredJobs(jm, sessionId, restoredCount);
        if added {
          jobs := jobs[jm.sessionId := jm];
          jm.Start();
        }
        isOk := reported;
      }
    }

    /** Binder `cancelSession`: flags the session for cancellation when it is registered. */
    method CancelSession(sessionId: int) returns (accepted: bool)
      requires Valid()
      modifies (if sessionId in jobs then {jobs[sessionId]} else {})`cancelRequested
      ensures Valid()
      ensures jobs == Apply(old(jobs), Cancel(sessionId))
      ensures accepted <==> sessionId in jobs
      ensures accepted ==> jobs[sessionId].cancelRequested
    {
      if sessionId in jobs {
        var jm := jobs[sessionId];
        jm.PrepareCancel();
        return true;
      }
      return false;
    }

    /** The finish callback every binder session registers. */
    method OnSessionFinished(sessionId: int)
      requires Valid()
      modifies this`jobs
      ensures Valid()
      ensures jobs == Apply(old(jobs), Unregister(sessionId))
      ensures sessionId !in jobs && forall id :: id in old(jobs) && id != sessionId ==> id in jobs && jobs[id] == old(jobs)[id]
    {
      jobs := jobs - {sessionId};
    }
  }
}
