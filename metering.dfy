/**
 * The metering-certificate step of a session: it asks the rights engine for
 * a metering-certificate challenge, posts it to the certificate server,
 * hands the server's answer back to the engine, and (de)serialises its three
 * fields and its group id to and from a flat job row.
 */
module MeteringCertificate {
  import opened Wrappers
  import opened Session
  import opened JobStore
  import opened Collaborators

  /** The code stored under `HttpError` when the engine gives no usable reply. */
  const ENGINE_FAILURE: int := -6

  /** A string that is neither null nor empty. */
  predicate Present(s: Option<string>)
  {
    s.Some? && |s.value| > 0
  }

  /** The request for a metering-certificate challenge, addressed to `mime`. */
  function ChallengeRequest(mime: Mime, meteringId: Option<string>, customData: Option<string>): (r: InfoRequest)
    ensures r.mime == mime && r.action == GenerateMeterCertChallenge
    ensures r.fields.Keys == {MeteringIdKey, CustomDataKey}
    ensures r.fields[MeteringIdKey] == meteringId && r.fields[CustomDataKey] == customData
  {
    InfoRequest(mime, GenerateMeterCertChallenge, map[MeteringIdKey := meteringId, CustomDataKey := customData])
  }

  /** The request that hands the server's answer `data` to the engine, addressed to `mime`. */
  function ResponseRequest(mime: Mime, data: Option<string>): (r: InfoRequest)
    ensures r.mime == mime && r.action == ProcessMeterCertResponse
    ensures r.fields.Keys == {DataKey} && r.fields[DataKey] == data
  {
    InfoRequest(mime, ProcessMeterCertResponse, map[DataKey := data])
  }

  /** The requests sent to the engine during one exchange, and the reply kept. */
  datatype EngineRound = EngineRound(sent: seq<InfoRequest>, reply: Option<Reply>)

  /**
   * One exchange with the engine: the PIFF request goes first, and the DLS
   * request is sent only when the PIFF request got a null reply.
   */
  function AskWithFallback(answer: InfoRequest -> Option<Reply>, piff: InfoRequest, dls: InfoRequest): (r: EngineRound)
    ensures 1 <= |r.sent| <= 2 && r.sent[0] == piff
    ensures |r.sent| == 2 <==> answer(piff).None?
    ensures |r.sent| == 2 ==> r.sent[1] == dls
    ensures r.reply == answer(r.sent[|r.sent| - 1])
    ensures r.reply.None? ==> answer(piff).None? && answer(dls).None?
  {
    if answer(piff).Some? then EngineRound([piff], answer(piff))
    else EngineRound([piff, dls], answer(dls))
  }

  /** The status entry of a reply, null when absent. */
  function ReplyStatus(reply: Reply): Option<string>
  {
    if StatusKey in reply then Some(reply[StatusKey]) else None
  }

  /** The data entry of a reply, null when absent. */
  function ReplyData(reply: Reply): Option<string>
  {
    if DataKey in reply then Some(reply[DataKey]) else None
  }

  /** The acceptance test both engine exchanges apply to the reply. */
  predicate StatusOk(reply: Option<Reply>)
    ensures StatusOk(reply) <==> reply.Some? && StatusKey in reply.value && reply.value[StatusKey] == "ok"
  {
    reply.Some? && Present(ReplyStatus(reply.value)) && ReplyStatus(reply.value).value == "ok"
  }

  /** The parameter bag after an optional error code has been stored. */
  function RecordError(parameters: map<ParamKey, int>, error: Option<int>): map<ParamKey, int>
  {
    if error.Some? then parameters[HttpError := error.value] else parameters
  }

  /** What one call of a job step does: its result, requests, posts and recorded error. */
  datatype Attempt = Attempt(status: bool, sent: seq<InfoRequest>, posted: seq<Post>, error: Option<int>)

  /** The engine exchange that generates the challenge. */
  function ChallengeRound(meteringId: Option<string>, customData: Option<string>, answer: InfoRequest -> Option<Reply>): EngineRound
  {
    AskWithFallback(answer, ChallengeRequest(DlsPiffMime, meteringId, customData), ChallengeRequest(DlsMime, meteringId, customData))
  }

  /** The engine exchange that processes the server's answer. */
  function ResponseRound(data: Option<string>, answer: InfoRequest -> Option<Reply>): EngineRound
  {
    AskWithFallback(answer, ResponseRequest(DlsPiffMime, data), ResponseRequest(DlsMime, data))
  }

  /** What `executeNormal` does with the given fields, engine and server. */
  function ExecuteNormalSpec(server: Option<string>, meteringId: Option<string>, customData: Option<string>,
                             answer: InfoRequest -> Option<Reply>, accept: Post -> bool): (a: Attempt)
    // without a server and a metering id nothing is asked, posted or recorded
    ensures !(Present(server) && Present(meteringId)) ==> a == Attempt(false, [], [], None)
    ensures Present(server) && Present(meteringId) ==> a.sent == ChallengeRound(meteringId, customData, answer).sent
    // the error code is recorded exactly when the engine's reply is unusable
    ensures a.error.Some? <==>
              Present(server) && Present(meteringId) && !StatusOk(ChallengeRound(meteringId, customData, answer).reply)
    ensures a.error.Some? ==> a.error.value == ENGINE_FAILURE && !a.status && a.posted == []
    // the challenge is posted exactly when the engine said "ok"
    ensures |a.posted| > 0 <==>
              Present(server) && Present(meteringId) && StatusOk(ChallengeRound(meteringId, customData, answer).reply)
    ensures |a.posted| > 0 ==>
              a.posted == [Post(server.value, ReplyData(ChallengeRound(meteringId, customData, answer).reply.value))]
              && a.status == accept(a.posted[0])
    ensures a.status ==> |a.posted| == 1 && accept(a.posted[0]) && a.error.None?
  {
    if Present(server) && Present(meteringId) then
      var round := ChallengeRound(meteringId, customData, answer);
      if StatusOk(round.reply) then
        var post := Post(server.value, ReplyData(round.reply.value));
        Attempt(accept(post), round.sent, [post], None)
      else
        Attempt(false, round.sent, [], Some(ENGINE_FAILURE))
    else
      Attempt(false, [], [], None)
  }

  /** What `handleResponse200` does with the server's answer `data`. */
  function HandleResponseSpec(data: Option<string>, answer: InfoRequest -> Option<Reply>): (a: Attempt)
    ensures a.sent == ResponseRound(data, answer).sent && a.posted == []
    // success means exactly that the engine's final reply says "ok"
    ensures a.status <==> StatusOk(ResponseRound(data, answer).reply)
    ensures a.error.Some? <==> !a.status
    ensures a.error.Some? ==> a.error.value == ENGINE_FAILURE
  {
    var round := ResponseRound(data, answer);
    if StatusOk(round.reply) then Attempt(true, round.sent, [], None)
    else Attempt(false, round.sent, [], Some(ENGINE_FAILURE))
  }

  /**
   * The row `writeToDB` inserts: the type tag, the group id, the three
   * fields in the generic columns and, when the job belongs to a session,
   * the session id. Reading the row back gives the four values again.
   */
  function MeteringRow(server: Option<string>, meteringId: Option<string>, customData: Option<string>,
                       groupId: int, session: Option<int>): (row: Row)
    ensures row.Keys == {TypeColumn, GroupIdColumn, General1, General2, General3} + (if session.Some? then {SessionIdColumn} else {})
    ensures row[TypeColumn] == Tag(GetMeteringCertificateType)
    ensures session.Some? ==> row[SessionIdColumn] == Number(session.value)
    ensures row[General1] == Text(server) && row[General2] == Text(meteringId) && row[General3] == Text(customData)
    ensures row[GroupIdColumn] == Number(groupId)
    ensures TextAt(row, General1) == server && TextAt(row, General2) == meteringId && TextAt(row, General3) == customData
    ensures IntAt(row, GroupIdColumn) == groupId
  {
    var fields := map[TypeColumn := Tag(GetMeteringCertificateType), GroupIdColumn := Number(groupId),
                      General1 := Text(server), General2 := Text(meteringId), General3 := Text(customData)];
    if session.Some? then fields[SessionIdColumn := Number(session.value)] else fields
  }

  /**
   * A certificate fetch that succeeds end to end: the engine answers the
   * PIFF challenge request with "ok" and data "abc", the server accepts the
   * post, and the engine accepts the server's answer "resp-xyz".
   */
  lemma SuccessfulFetchScenario(answer: InfoRequest -> Option<Reply>, accept: Post -> bool)
    requires answer(ChallengeRequest(DlsPiffMime, Some("M-1"), Some(""))) == Some(map[StatusKey := "ok", DataKey := "abc"])
    requires accept(Post("https://lic.example/cert", Some("abc")))
    requires answer(ResponseRequest(DlsPiffMime, Some("resp-xyz"))) == Some(map[StatusKey := "ok"])
    ensures ExecuteNormalSpec(Some("https://lic.example/cert"), Some("M-1"), Some(""), answer, accept)
              == Attempt(true, [ChallengeRequest(DlsPiffMime, Some("M-1"), Some(""))],
                         [Post("https://lic.example/cert", Some("abc"))], None)
    ensures HandleResponseSpec(Some("resp-xyz"), answer) == Attempt(true, [ResponseRequest(DlsPiffMime, Some("resp-xyz"))], [], None)
  {
  }

  /** The same fetch when the engine refuses the challenge: nothing is posted and -6 is recorded. */
  lemma RefusedChallengeScenario(answer: InfoRequest -> Option<Reply>, accept: Post -> bool)
    requires answer(ChallengeRequest(DlsPiffMime, Some("M-1"), Some(""))) == Some(map[StatusKey := "error"])
    ensures ExecuteNormalSpec(Some("https://lic.example/cert"), Some("M-1"), Some(""), answer, accept)
              == Attempt(false, [ChallengeRequest(DlsPiffMime, Some("M-1"), Some(""))], [], Some(ENGINE_FAILURE))
  {
  }

  class GetMeteringCertificateJob {
    var certificateServer: Option<string>
    var meteringId: Option<string>
    var customData: Option<string>
    /** Position of the job in its session's stack. */
    var groupId: int
    /** Identity of the job's persisted row; -1 until it is first written. */
    var databaseId: int
    /** The session the job belongs to, once it is pushed onto one. */
    var manager: JobManager?

    /** A null custom data is kept as the empty string. */
    constructor (certificateServer: Option<string>, meteringId: Option<string>, customData: Option<string>)
      ensures this.certificateServer == certificateServer && this.meteringId == meteringId
      ensures this.customData == (if customData.Some? then customData else Some(""))
      ensures groupId == 0 && databaseId == -1 && manager == null
    {
      this.certificateServer := certificateServer;
      this.meteringId := meteringId;
      this.customData := Some("");
      groupId := 0;
      databaseId := -1;
      manager := null;
      if customData.Some? {
        this.customData := customData;
      }
    }

    /** The session id written with the row, when the job has a session. */
    function SessionOfManager(): Option<int>
      reads this, manager
    {
      if manager != null then Some(manager.sessionId) else None
    }

    /** Generates the challenge and posts it to the certificate server. */
    method ExecuteNormal(engine: RightsEngine, transport: Transport) returns (status: bool)
      requires manager != null
      modifies manager`parameters, engine`sent, transport`posted
      ensures var a := ExecuteNormalSpec(certificateServer, meteringId, customData, engine.answer, transport.accept);
              && status == a.status
              && engine.sent == old(engine.sent) + a.sent
              && transport.posted == old(transport.posted) + a.posted
              && manager.parameters == RecordError(old(manager.parameters), a.error)
    {
      status := false;
      if Present(certificateServer) && Present(meteringId) {
        var reply := engine.SendInfoRequest(ChallengeRequest(DlsPiffMime, meteringId, customData));
        if reply.None? {
          reply := engine.SendInfoRequest(ChallengeRequest(DlsMime, meteringId, customData));
        }
        if StatusOk(reply) {
          var data := ReplyData(reply.value);
          status := transport.PostMessage(certificateServer.value, data);
        } else {
          manager.AddParameter(HttpError, ENGINE_FAILURE);
        }
      }
    }

    /** Hands the certificate server's answer to the engine. */
    method HandleResponse200(engine: RightsEngine, data: Option<string>) returns (isOk: bool)
      requires manager != null
      modifies manager`parameters, engine`sent
      ensures var a := HandleResponseSpec(data, engine.answer);
              && isOk == a.status
              && engine.sent == old(engine.sent) + a.sent
              && manager.parameters == RecordError(old(manager.parameters), a.error)
    {
      isOk := false;
      var reply := engine.SendInfoRequest(ResponseRequest(DlsPiffMime, data));
      if reply.None? {
        reply := engine.SendInfoRequest(ResponseRequest(DlsMime, data));
      }
      if StatusOk(reply) {
        isOk := true;
      } else {
        manager.AddParameter(HttpError, ENGINE_FAILURE);
      }
    }

    /** Inserts the job's row; the database id is kept only when the insert succeeds. */
    method WriteToDB(db: JobDatabase) returns (status: bool)
      modifies this`databaseId, db`rows, db`nextId
      ensures status == db.writable
      ensures status ==> databaseId == old(db.nextId) && databaseId != INSERT_FAILED
      ensures status ==> db.rows == old(db.rows)[databaseId := MeteringRow(certificateServer, meteringId, customData, groupId, SessionOfManager())]
      ensures !status ==> databaseId == old(databaseId) && db.rows == old(db.rows)
      ensures db.nextId == old(db.nextId) + (if status then 1 else 0)
    {
      status := true;
      var values := map[TypeColumn := Tag(GetMeteringCertificateType)];
      values := values[GroupIdColumn := Number(groupId)];
      if manager != null {
        values := values[SessionIdColumn := Number(manager.sessionId)];
      }
      values := values[General1 := Text(certificateServer)];
      values := values[General2 := Text(meteringId)];
      values := values[General3 := Text(customData)];
      values := values[GroupIdColumn := Number(groupId)];
      assert values == MeteringRow(certificateServer, meteringId, customData, groupId, SessionOfManager());
      var result := db.Insert(values);
      if result != INSERT_FAILED {
        databaseId := result;
      } else {
        status := false;
      }
    }

    /** Restores the three fields and the group id from a stored row. */
    method ReadFromDB(row: Row) returns (ok: bool)
      modifies this`certificateServer, this`meteringId, this`customData, this`groupId
      ensures ok
      ensures certificateServer == TextAt(row, General1) && meteringId == TextAt(row, General2)
      ensures customData == TextAt(row, General3) && groupId == IntAt(row, GroupIdColumn)
    {
      certificateServer := TextAt(row, General1);
      meteringId := TextAt(row, General2);
      customData := TextAt(row, General3);
      groupId := IntAt(row, GroupIdColumn);
      ok := true;
    }
  }

  /**
   * Persisting a job and restoring another job from the stored row gives
   * back the server, the metering id, the custom data and the group id.
   */
  method PersistAndRestore(job: GetMeteringCertificateJob, restored: GetMeteringCertificateJob, db: JobDatabase)
    returns (ok: bool)
    requires job != restored
    modifies job`databaseId, db`rows, db`nextId
    modifies restored`certificateServer, restored`meteringId, restored`customData, restored`groupId
    ensures ok == db.writable
    ensures ok ==> job.databaseId in db.rows
    ensures ok ==> && restored.certificateServer == job.certificateServer
                   && restored.meteringId == job.meteringId
                   && restored.customData == job.customData
                   && restored.groupId == job.groupId
  {
    ok := job.WriteToDB(db);
    if ok {
      var _ := restored.ReadFromDB(db.rows[job.databaseId]);
    }
  }
}
