/**
 * The job database as a map-based store: a row maps columns to values, and
 * an insert either stores the row under a new identifier or fails with -1.
 */
module JobStore {
  import opened Wrappers

  /** Type tags of the persisted job variants. */
  datatype JobType = RenewRightsType | WebInitiatorType | DrmFeedbackType | GetMeteringCertificateType

  /** The columns of the tasks table that the jobs in this model write. */
  datatype Column = TypeColumn | SessionIdColumn | GroupIdColumn | General1 | General2 | General3

  /** A cell: a type tag, an integer, or a string that may be null. */
  datatype Value = Tag(jobType: JobType) | Number(n: int) | Text(text: Option<string>)

  type Row = map<Column, Value>

  /** Reads a string column; a missing or non-text cell reads as null. */
  function TextAt(row: Row, col: Column): (s: Option<string>)
    ensures col in row && row[col].Text? ==> s == row[col].text
    ensures s.Some? ==> col in row && row[col] == Text(s)
  {
    if col in row && row[col].Text? then row[col].text else None
  }

  /** Reads an integer column; a missing or non-integer cell reads as 0. */
  function IntAt(row: Row, col: Column): (n: int)
    ensures col in row && row[col].Number? ==> n == row[col].n
    ensures n != 0 ==> col in row && row[col] == Number(n)
  {
    if col in row && row[col].Number? then row[col].n else 0
  }

  /** The failure result of an insert. */
  const INSERT_FAILED: int := -1

  class JobDatabase {
    var rows: map<int, Row>
    var nextId: nat
    /** Whether inserts succeed: the outcome of the underlying store. */
    const writable: bool

    constructor (writable: bool)
      ensures this.writable == writable && rows == map[] && nextId == 1
    {
      this.writable := writable;
      rows := map[];
      nextId := 1;
    }

    /** Stores `row` and returns its identifier, or -1 when the store refuses it. */
    method Insert(row: Row) returns (id: int)
      modifies this`rows, this`nextId
      ensures writable ==> id == old(nextId) && rows == old(rows)[id := row] && nextId == old(nextId) + 1
      ensures !writable ==> id == INSERT_FAILED && rows == old(rows) && nextId == old(nextId)
    {
      if writable {
        id := nextId;
        rows := rows[id := row];
        nextId := nextId + 1;
      } else {
        id := INSERT_FAILED;
      }
    }

    /** Deletes every stored job: the purge a boot-completed start command asks for. */
    method PurgeDatabase()
      modifies this`rows
      ensures rows == map[]
    {
      rows := map[];
    }
  }
}

/**
 * The rights engine and the certificate server, seen from a job: each
 * answers through a fixed oracle and keeps a log of what it was sent.
 */
module Collaborators {
  import opened Wrappers

  /** The two content types a request can be addressed to. */
  datatype Mime = DlsPiffMime | DlsMime

  /** The engine actions the metering-certificate job asks for. */
  datatype EngineAction = GenerateMeterCertChallenge | ProcessMeterCertResponse

  /** Keys of engine requests and replies. */
  datatype InfoKey = MeteringIdKey | CustomDataKey | DataKey | StatusKey

  /**
   * A rights-acquisition-info request: the content type it is addressed to,
   * the action, and the other entries (each value possibly null).
   */
  datatype InfoRequest = InfoRequest(mime: Mime, action: EngineAction, fields: map<InfoKey, Option<string>>)

  type Reply = map<InfoKey, string>

  /** A message posted to a server: its URL and its body, which may be null. */
  datatype Post = Post(url: string, data: Option<string>)

  class RightsEngine {
    /** The reply the engine gives to each request; `None` is a null reply. */
    const answer: InfoRequest -> Option<Reply>
    var sent: seq<InfoRequest>

    constructor (answer: InfoRequest -> Option<Reply>)
      ensures this.answer == answer && sent == []
    {
      this.answer := answer;
      sent := [];
    }

    method SendInfoRequest(request: InfoRequest) returns (reply: Option<Reply>)
      modifies this`sent
      ensures sent == old(sent) + [request]
      ensures reply == answer(request)
    {
      sent := sent + [request];
      reply := answer(request);
    }
  }

  class Transport {
    /** Whether posting a message succeeds. */
    const accept: Post -> bool
    var posted: seq<Post>

    constructor (accept: Post -> bool)
      ensures this.accept == accept && posted == []
    {
      this.accept := accept;
      posted := [];
    }

    method PostMessage(url: string, data: Option<string>) returns (ok: bool)
      modifies this`posted
      ensures posted == old(posted) + [Post(url, data)]
      ensures ok == accept(Post(url, data))
    {
      posted := posted + [Post(url, data)];
      ok := accept(Post(url, data));
    }
  }
}
