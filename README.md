# DRM License Service: metering-certificate step and session routing

This project models two parts of the DRM License Service for Android in Dafny.

1. **The metering-certificate job step** (`GetMeteringCertificateJob`, module `MeteringCertificate`).
   - It asks the rights engine for a metering-certificate challenge. The PIFF content type is tried first. The plain DLS type is tried only when the first reply is null.
   - A reply is used only when its status is exactly `"ok"`. The challenge data is then posted to the certificate server.
   - Any other outcome stores error code `-6` under the session's HTTP-error parameter.
   - The server's answer goes back to the engine under the same fallback and status rule.
   - The job writes its three fields and its group id to a flat row and reads them back.
2. **The service's routing and session registry** (`DrmLicenseService`, module `LicenseService`).
   - `OnStartCommand` turns an intent into a list of effects. An effect is a notification, a new session with its job stack, a database purge or a service stop. The result code is always `START_NOT_STICKY`.
   - The binder methods create sessions and register them in a map from session id to `JobManager`. They also rebind an observer to a stored session and flag a session for cancellation.
   - The finish callback removes a session from that map.
   - The registry's invariant `Valid()` says every registered manager is filed under its own session id and carries its finish callback. Every binder method keeps it.
   - The registry's semantics is also given as a replay of put/remove/lookup events. Lemmas proved by induction show that cancelling never changes the registry, and that an id is registered exactly when the last event touching it was a put.

Collaborators are modelled abstractly:
- The rights engine (`Collaborators.RightsEngine`) is a fixed reply oracle plus a log of the requests it was sent.
- The HTTP transport (`Collaborators.Transport`) is a boolean oracle plus a log of the posts.
- The job database (`JobStore.JobDatabase`) is a map of rows with an insert that fails (returns -1) when the store is not writable.
- `Session.JobManager` holds only what these two files use: the session id, the parameter bag, the job stack, the observer, the cancellation flag, and whether the finish callback was registered and the worker started.

Java `null` is `None` of `Option`. Intents are records of optional strings and an optional URI.

Observations:
- The activity entry point compares the MIME type ignoring case (`DrmLicenseService.java:103-104`). The web-initiator path it hands over to then compares the type exactly (`DrmLicenseService.java:189`). So an initiator whose type differs only in letter case passes the first check and starts nothing. `ActivityInitiatorInOtherCaseIsDropped` and `UpperCaseInitiatorDiffers` state this. It is not claimed as a defect, because the value of the initiator-MIME constant is not part of this model. The model assumes it equals the literal used at line 189.
- `writeToDB` puts the group-id column twice with the same value (lines 133 and 140). The model's map update gives the same row.

## Model

| member | source | states |
|---|---|---|
| `MeteringCertificate.GetMeteringCertificateJob.constructor` | src/com/sonyericsson/android/drm/drmlicenseservice/jobs/GetMeteringCertificateJob.java:60-67 | server and metering id are stored as given; a null custom data is stored as `""`, any other as given |
| `MeteringCertificate.ChallengeRequest` | src/com/sonyericsson/android/drm/drmlicenseservice/jobs/GetMeteringCertificateJob.java:43-50 | the challenge request has the given content type, the GENERATE_METER_CERT_CHALLENGE action, and exactly the metering id and custom data entries |
| `MeteringCertificate.ResponseRequest` | src/com/sonyericsson/android/drm/drmlicenseservice/jobs/GetMeteringCertificateJob.java:52-58 | the response request has the given content type, the PROCESS_METER_CERT_RESPONSE action, and exactly the data entry |
| `MeteringCertificate.AskWithFallback` | src/com/sonyericsson/android/drm/drmlicenseservice/jobs/GetMeteringCertificateJob.java:81-86 | the PIFF request is sent first; the DLS request is sent second iff the PIFF reply is null; the reply kept is the last one received, and it is null only if both replies were null |
| `MeteringCertificate.StatusOk` | src/com/sonyericsson/android/drm/drmlicenseservice/jobs/GetMeteringCertificateJob.java:87-89 | a reply is accepted iff it is non-null and its status entry is exactly `"ok"` |
| `MeteringCertificate.ExecuteNormalSpec` | src/com/sonyericsson/android/drm/drmlicenseservice/jobs/GetMeteringCertificateJob.java:76-101 | without a non-empty server and metering id: result false, no request, no post, no error. Otherwise: the challenge exchange is sent; -6 is recorded iff the reply is not "ok", and then nothing is posted; the challenge data is posted to the server iff the reply is "ok", and the result is then the post's outcome with no error |
| `MeteringCertificate.HandleResponseSpec` | src/com/sonyericsson/android/drm/drmlicenseservice/jobs/GetMeteringCertificateJob.java:104-125 | the response exchange carrying the server's data is sent and nothing is posted; the result is true iff the final reply is "ok"; otherwise -6 is recorded |
| `MeteringCertificate.MeteringRow` | src/com/sonyericsson/android/drm/drmlicenseservice/jobs/GetMeteringCertificateJob.java:130-140 | the row holds the GET_METERING_CERTIFICATE tag, the group id, and server, metering id and custom data in GENERAL1..3; each is an exact cell (`Text` or `Number`), not only something that reads back as that value; it has a session-id column iff the job has a session, holding that id; reading the columns back gives the four values again |
| `MeteringCertificate.SuccessfulFetchScenario` | src/com/sonyericsson/android/drm/drmlicenseservice/jobs/GetMeteringCertificateJob.java:76-125 | with an "ok" engine, an accepting server and an "ok" answer, both steps succeed, after one engine request each and one post |
| `MeteringCertificate.RefusedChallengeScenario` | src/com/sonyericsson/android/drm/drmlicenseservice/jobs/GetMeteringCertificateJob.java:87-95 | a non-"ok" challenge reply fails the step, posts nothing and records -6 |
| `MeteringCertificate.GetMeteringCertificateJob.ExecuteNormal` | src/com/sonyericsson/android/drm/drmlicenseservice/jobs/GetMeteringCertificateJob.java:76-101 | the result, the requests the engine received, the posts the server received and the new parameter bag are exactly those of `ExecuteNormalSpec` |
| `MeteringCertificate.GetMeteringCertificateJob.HandleResponse200` | src/com/sonyericsson/android/drm/drmlicenseservice/jobs/GetMeteringCertificateJob.java:104-125 | the result, the requests the engine received and the new parameter bag are exactly those of `HandleResponseSpec` |
| `MeteringCertificate.GetMeteringCertificateJob.WriteToDB` | src/com/sonyericsson/android/drm/drmlicenseservice/jobs/GetMeteringCertificateJob.java:128-148 | when the insert fails (-1): false, database id and rows unchanged; otherwise true, the database id is the insert's result, and the store holds `MeteringRow` under it; the store's next id advances by one exactly on success, so two successful writes get different ids |
| `MeteringCertificate.GetMeteringCertificateJob.ReadFromDB` | src/com/sonyericsson/android/drm/drmlicenseservice/jobs/GetMeteringCertificateJob.java:151-157 | always true; server, metering id, custom data and group id are taken from GENERAL1..3 and the group-id column |
| `MeteringCertificate.PersistAndRestore` | src/com/sonyericsson/android/drm/drmlicenseservice/jobs/GetMeteringCertificateJob.java:128-157 | writing a job and then reading another job from the stored row restores server, metering id, custom data and group id; it succeeds iff the store accepts the insert |
| `LicenseService.OnStartCommand` | src/com/sonyericsson/android/drm/drmlicenseservice/DrmLicenseService.java:81-124 | the result is START_NOT_STICKY; a null intent sends TYPE_NOT_SUPPORTED; a null action sends TYPE_RIGHTS_NOT_INSTALLED; the renew and web-initiator actions take their paths; the activity action takes the web-initiator path only when the type matches the initiator MIME ignoring case; boot-completed purges and stops; any other action does nothing |
| `LicenseService.RenewRightsEffects` | src/com/sonyericsson/android/drm/drmlicenseservice/DrmLicenseService.java:135-170 | a null or empty URI sends RIGHTS_NOT_INSTALLED and starts no session; otherwise WAIT_FOR_RIGHTS with the file's path is sent first, then exactly one session with one RenewRightsJob starts |
| `LicenseService.WebInitiatorEffects` | src/com/sonyericsson/android/drm/drmlicenseservice/DrmLicenseService.java:172-207 | one session with one WebInitiatorJob starts iff the type equals the initiator MIME exactly and the URI is non-null with a scheme; otherwise nothing happens |
| `LicenseService.EqualsIgnoreCase` | src/com/sonyericsson/android/drm/drmlicenseservice/DrmLicenseService.java:103-104 | equal strings match; matching strings have the same length |
| `LicenseService.AtMostOneSessionPerCommand` | src/com/sonyericsson/android/drm/drmlicenseservice/DrmLicenseService.java:84-121 | a start command starts at most one session |
| `LicenseService.StartedSessionsAreJustified` | src/com/sonyericsson/android/drm/drmlicenseservice/DrmLicenseService.java:95-106 | a started session comes from a renew intent with a non-empty URI (one RenewRightsJob), or from a web-initiator or activity intent with the exact initiator type and a URI with a scheme (one WebInitiatorJob) |
| `LicenseService.PurgeOnlyOnBoot` | src/com/sonyericsson/android/drm/drmlicenseservice/DrmLicenseService.java:107-113 | the database is purged iff the action is BOOT_COMPLETED, and then no session starts |
| `LicenseService.ActivityInitiatorInOtherCaseIsDropped` | src/com/sonyericsson/android/drm/drmlicenseservice/DrmLicenseService.java:100-106 | an activity intent whose type matches the initiator MIME only ignoring case has no effect |
| `LicenseService.UpperCaseInitiatorDiffers` | src/com/sonyericsson/android/drm/drmlicenseservice/DrmLicenseService.java:103-104 | the upper-case initiator MIME matches the constant ignoring case but differs from it |
| `LicenseService.CancelsLeaveRegistryUnchanged` | src/com/sonyericsson/android/drm/drmlicenseservice/DrmLicenseService.java:310-320 | in any history of puts, removes and cancels, dropping the cancels gives the same registry |
| `LicenseService.RegisteredAfterReplay` | src/com/sonyericsson/android/drm/drmlicenseservice/DrmLicenseService.java:225-235 | after any history, an id is registered iff the last put or remove of it in the history was a put, or neither happened and it was registered at the start |
| `LicenseService.CancelAfterFinishIsRefused` | src/com/sonyericsson/android/drm/drmlicenseservice/DrmLicenseService.java:310-320 | after a session's finish callback, a cancel for it finds no session; every other registered session keeps its manager |
| `LicenseService.DrmLicenseService.StartCommand` | src/com/sonyericsson/android/drm/drmlicenseservice/DrmLicenseService.java:107-123 | returns the routing's result code and empties the job database exactly when the routing asks for a purge; otherwise the stored rows are unchanged |
| `LicenseService.DrmLicenseService.HandleWebInitiator` | src/com/sonyericsson/android/drm/drmlicenseservice/DrmLicenseService.java:216-238 | a null URI returns 0 and leaves the registry unchanged; otherwise a fresh manager is registered under the new id, its stack is WebInitiatorJob on top of DrmFeedbackJob, it is started with its finish callback installed, and its id is returned; the registry invariant is kept |
| `LicenseService.DrmLicenseService.RenewRights` | src/com/sonyericsson/android/drm/drmlicenseservice/DrmLicenseService.java:240-261 | a null URI returns 0 and leaves the registry unchanged; otherwise a fresh manager holding one RenewRightsJob is registered under the new id, started with its finish callback installed, and its id is returned; the registry invariant is kept |
| `LicenseService.DrmLicenseService.SetCallbackListener` | src/com/sonyericsson/android/drm/drmlicenseservice/DrmLicenseService.java:263-308 | a null callback or id 0 returns false and leaves the registry unchanged; the manager is registered under the id and started only when more than 0 stored jobs were restored; the registry invariant is kept |
| `LicenseService.DrmLicenseService.ReadInStoredJobs` | src/com/sonyericsson/android/drm/drmlicenseservice/DrmLicenseService.java:324-335 | jobs were added iff there is a manager and the database restored more than 0 jobs |
| `LicenseService.DrmLicenseService.CancelSession` | src/com/sonyericsson/android/drm/drmlicenseservice/DrmLicenseService.java:310-320 | true iff the id is registered, and then that manager is flagged for cancellation; the registry map is unchanged; the registry invariant is kept |
| `LicenseService.DrmLicenseService.OnSessionFinished` | src/com/sonyericsson/android/drm/drmlicenseservice/DrmLicenseService.java:228-235 | exactly the finished id is removed; all other entries stay as they were; the registry invariant is kept |

## Left out

- `LicenseService.DrmLicenseService.SetCallbackListener`: its result, when the guard passes, is an input (`reported`). The real value comes from a message posted inside `DrmJobDatabase.addDatabaseJobsToStack`, which is not part of this model. The restored-job count is an input for the same reason.
- `MeteringCertificate.GetMeteringCertificateJob.ExecuteNormal`: `postMessage` (from `StackableJob`, not part of this model) is a boolean oracle. Whatever it does beyond returning success, such as calling `handleResponse200` or recording HTTP errors, is not modelled.
- `MeteringCertificate.ChallengeRequest`: `StackableJob.addCustomData` is not part of this model. It is modelled as a plain put of the custom data.
- `MeteringCertificate.GetMeteringCertificateJob.ExecuteNormal` and `HandleResponse200` require the job to belong to a session, because the source dereferences its manager on the error path without a check.
- `sendInfoRequest` (the DRM engine) is a reply oracle. The request type is always rights-acquisition info and is not represented.
- The `DrmJobDatabase` SQLite internals, `Cursor` and `ContentValues` are a map-based store. Insert failure is a fixed property of the store. Columns are read by name. The model assumes the cursor positions `COLUMN_GETMETERING_*` and `COLUMN_TASKS_POS_GRP_ID` correspond to GENERAL1..3 and the group-id column. A missing or null integer cell reads as 0.
- `Constants.java` and `DatabaseConstants.java` are not part of this model:
  - content types, request keys and job type tags are datatypes;
  - the two service action names are stand-in strings, and only their distinctness matters;
  - `DRM_DLS_INITIATOR_MIME` is assumed equal to the literal at `DrmLicenseService.java:189`.
- `LicenseService.EqualsIgnoreCase` folds ASCII letters only. Java's `equalsIgnoreCase` also folds other Unicode letters.
- `JobManager` internals are not part of this model: session-id generation (the new id is an input), `start` (a flag), `restoreState`, the effect of `prepareCancel` on execution, and stack execution. The RenewRights, WebInitiator and DrmFeedback jobs are only named in stacks.
- The Android `Service` lifecycle (`onCreate`, `onDestroy`, `onBind`), `Toast`, logging and thread priority are platform plumbing.
- The threads spawned per request, the `synchronized` blocks, and the nested `Looper` event loop in `setCallbackListener` are concurrency. All operations are modelled sequentially: the registry put happens before `start`, but no interleaving is modelled.
- Session ids are unbounded integers. Java's 64-bit `long` range is not modelled because no arithmetic is done on ids.
