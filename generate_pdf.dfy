/**
 * The serverless handler that answers a student identity number with a
 * time-limited link to that student's stored PAJSK report.
 *
 * Respond is the decision pipeline as a function of the request and of what
 * the two foreign calls (the record query and the signed-URL request) return:
 * method gate, body validation, lookup classification, storage path and
 * response mapping. Handle is the handler itself, writing step by step into a
 * ServerResponse, and is proved to produce exactly what Respond describes.
 */
module GeneratePdf {
  import opened Wrappers
  import opened JsStrings
  import opened JsValues
  import opened HttpResponse

  const BUCKET_NAME := "pajsk-reports"
  const SIGNED_URL_EXPIRY_SECONDS := 3600
  const RECORDS_TABLE := "pajsk_records"
  const ID_COLUMN := "id_card"
  const ID_FIELD := "idCardNumber"
  /** PostgREST's code for "`.single()` found no row (or more than one)". */
  const NO_ROWS_CODE := "PGRST116"

  const CORS_HEADERS: map<string, string> := map[
    "Access-Control-Allow-Origin" := "*",
    "Access-Control-Allow-Methods" := "POST, OPTIONS",
    "Access-Control-Allow-Headers" := "Content-Type"
  ]

  const METHOD_NOT_ALLOWED := "Method Not Allowed."
  const MISSING_ID := "请求错误：缺少学生身份证号码。"
  const INVALID_JSON := "请求错误：JSON 格式无效。"
  const QUERY_FAILED := "数据库查询失败。"
  const RECORD_NOT_FOUND := "未找到该身份证号码的 PAJSK 报告记录。"
  const FILE_NOT_FOUND := "未找到该身份证号码对应的 PDF 报告文件。"
  const LINK_ISSUED := "成功获取成绩单链接。"
  const INTERNAL_ERROR := "内部服务器错误：无法处理请求。"

  /** Reading `req.body`: the platform parses JSON on access and throws when it cannot. */
  datatype BodyAccess = Parsed(value: JsValue) | Unparsable

  /** `verb` is `req.method`. */
  datatype Request = Request(verb: string, body: BodyAccess)

  datatype PostgrestError = PostgrestError(code: string)

  /** What the record query resolves to (`data`, `error`), or that awaiting it threw. */
  datatype QueryReply =
    | QueryThrew
    | QueryResolved(data: JsValue, error: Option<PostgrestError>)

  /**
   * What the signed-URL request resolves to, or that awaiting it threw.
   * `data` is None for a null `data`, Some(url) for `{ signedUrl: url }`;
   * `failed` says whether `error` was set.
   */
  datatype SignReply =
    | SignThrew
    | SignResolved(data: Option<string>, failed: bool)

  /** `from(table).select(columns).eq(column, value).single()` */
  datatype Query = Query(table: string, columns: string, column: string, value: string)

  /** `storage.from(bucket).createSignedUrl(path, expiresIn)` */
  datatype SignRequest = SignRequest(bucket: string, path: string, expiresIn: int)

  /** The foreign calls a request caused, with their arguments. */
  datatype Calls = Calls(query: Option<Query>, signing: Option<SignRequest>)

  const NO_CALLS := Calls(None, None)

  /** Everything a request produces: what is sent back and which calls were made. */
  datatype Reply = Reply(status: int, headers: map<string, string>, body: Option<JsonValue>, calls: Calls)

  function ErrorBody(message: string): JsonValue {
    JObject([("error", JString(message))])
  }

  function LinkBody(url: string): JsonValue {
    JObject([("pdfUrl", JString(url)), ("message", JString(LINK_ISSUED))])
  }

  /** `!body || !body.idCardNumber` is false: the body carries an identifier. */
  predicate CarriesId(body: JsValue) {
    IsTruthy(body) && IsTruthy(Get(body, ID_FIELD))
  }

  /** `String(body.idCardNumber)` throws, which the catch answers as invalid JSON. */
  predicate IdConversionThrows(body: JsValue)
    requires CarriesId(body)
  {
    ToStringThrows(Get(body, ID_FIELD))
  }

  /** The identifier the handler works with: `String(body.idCardNumber).trim()`. */
  function IdCardNumber(body: JsValue): string
    requires CarriesId(body) && !IdConversionThrows(body)
  {
    Trim(ToJsString(Get(body, ID_FIELD)))
  }

  /**
   * Body validation: the normalised identifier, or the message of the 400
   * reply. Both reading the body and converting the identifier happen inside
   * the try block whose catch answers "invalid JSON".
   */
  function ReadIdCardNumber(body: BodyAccess): Result<string, string> {
    match body
    case Unparsable => Failure(INVALID_JSON)
    case Parsed(v) =>
      if !CarriesId(v) then Failure(MISSING_ID)
      else if IdConversionThrows(v) then Failure(INVALID_JSON)
      else Success(IdCardNumber(v))
  }

  /** A query error other than "no rows" is a fault of the store. */
  predicate IsQueryFault(error: Option<PostgrestError>) {
    error.Some? && error.value.code != NO_ROWS_CODE
  }

  datatype LookupClass = RecordFound | NoRecord | QueryFailed | LookupThrew

  function ClassifyQuery(reply: QueryReply): LookupClass {
    match reply
    case QueryThrew => LookupThrew
    case QueryResolved(data, error) =>
      if IsQueryFault(error) then QueryFailed
      else if !IsTruthy(data) then NoRecord
      else RecordFound
  }

  function LookupQuery(id: string): Query {
    Query(RECORDS_TABLE, ID_COLUMN, ID_COLUMN, id)
  }

  /** The stored report's path in the bucket. */
  function FilePath(id: string): string {
    "reports/" + id + ".pdf"
  }

  /** Recovers the identifier from a report path (the inverse of FilePath). */
  function IdOfPath(path: string): Option<string> {
    if |path| >= 12 && path[..8] == "reports/" && path[|path| - 4..] == ".pdf"
    then Some(path[8..|path| - 4])
    else None
  }

  function SignRequestFor(id: string): SignRequest {
    SignRequest(BUCKET_NAME, FilePath(id), SIGNED_URL_EXPIRY_SECONDS)
  }

  function ErrorReply(status: int, message: string, calls: Calls): Reply {
    Reply(status, CORS_HEADERS, Some(ErrorBody(message)), calls)
  }

  /** The try block: query the record, then ask storage for a signed link to the report. */
  function Lookup(id: string, db: QueryReply, storage: SignReply): Reply {
    var queried := Calls(Some(LookupQuery(id)), None);
    match ClassifyQuery(db)
    case LookupThrew => ErrorReply(500, INTERNAL_ERROR, queried)
    case QueryFailed => ErrorReply(500, QUERY_FAILED, queried)
    case NoRecord => ErrorReply(404, RECORD_NOT_FOUND, queried)
    case RecordFound =>
      var signed := Calls(Some(LookupQuery(id)), Some(SignRequestFor(id)));
      match storage
      case SignThrew => ErrorReply(500, INTERNAL_ERROR, signed)
      case SignResolved(data, failed) =>
        if failed then ErrorReply(404, FILE_NOT_FOUND, signed)
        // reading `.signedUrl` of a null `data` throws a TypeError
        else if data.None? then ErrorReply(500, INTERNAL_ERROR, signed)
        else Reply(200, CORS_HEADERS, Some(LinkBody(data.value)), signed)
  }

  /** The whole handler as a function of the request and the two foreign replies. */
  function Respond(req: Request, db: QueryReply, storage: SignReply): Reply {
    if req.verb == "OPTIONS" then Reply(204, CORS_HEADERS, None, NO_CALLS)
    else if req.verb != "POST" then ErrorReply(405, METHOD_NOT_ALLOWED, NO_CALLS)
    else match ReadIdCardNumber(req.body)
      case Failure(message) => ErrorReply(400, message, NO_CALLS)
      case Success(id) => Lookup(id, db, storage)
  }

  /** Every reply, 204, 4xx and 5xx included, carries exactly the three cross-origin headers. */
  lemma EveryReplyCarriesCors(req: Request, db: QueryReply, storage: SignReply)
    ensures Respond(req, db, storage).headers == CORS_HEADERS
  {
    if req.verb == "POST" && ReadIdCardNumber(req.body).Success? {
      LookupCarriesCors(ReadIdCardNumber(req.body).value, db, storage);
    }
  }

  lemma LookupCarriesCors(id: string, db: QueryReply, storage: SignReply)
    ensures Lookup(id, db, storage).headers == CORS_HEADERS
  {
  }

  /** Sends `status` with `{ error: message }` and ends the response. */
  method SendError(res: ServerResponse, status: int, message: string)
    requires res.Valid() && !res.headersSent
    modifies res
    ensures res.Valid() && res.finished
    ensures res.statusCode == status && res.body == Some(ErrorBody(message))
    ensures res.headers == old(res.headers)
  {
    res.Status(status);
    res.Json(ErrorBody(message));
  }

  /** The three cross-origin headers, set before any branch. */
  method SetCorsHeaders(res: ServerResponse)
    requires res.Valid() && !res.headersSent
    modifies res
    ensures res.Valid() && !res.headersSent
    ensures res.headers == old(res.headers) + CORS_HEADERS
    ensures res.statusCode == old(res.statusCode) && res.body == old(res.body)
  {
    res.SetHeader("Access-Control-Allow-Origin", "*");
    res.SetHeader("Access-Control-Allow-Methods", "POST, OPTIONS");
    res.SetHeader("Access-Control-Allow-Headers", "Content-Type");
  }

  /** The try block of the handler, once the identifier is known. */
  method LookupAndSign(idCardNumber: string, db: QueryReply, storage: SignReply, res: ServerResponse)
    returns (calls: Calls)
    requires res.Valid() && !res.headersSent
    modifies res
    ensures res.Valid() && res.finished
    ensures var r := Lookup(idCardNumber, db, storage);
      && res.statusCode == r.status
      && res.headers == old(res.headers)
      && res.body == r.body
      && calls == r.calls
  {
    calls := Calls(Some(LookupQuery(idCardNumber)), None);
    match db {
      case QueryThrew =>
        SendError(res, 500, INTERNAL_ERROR);
        return;
      case QueryResolved(records, dbError) =>
        if dbError.Some? && dbError.value.code != NO_ROWS_CODE {
          SendError(res, 500, QUERY_FAILED);
          return;
        }
        if !IsTruthy(records) {
          SendError(res, 404, RECORD_NOT_FOUND);
          return;
        }
    }

    var filePath := FilePath(idCardNumber);
    calls := calls.(signing := Some(SignRequest(BUCKET_NAME, filePath, SIGNED_URL_EXPIRY_SECONDS)));
    match storage {
      case SignThrew =>
        SendError(res, 500, INTERNAL_ERROR);
      case SignResolved(signedUrlData, storageError) =>
        if storageError {
          SendError(res, 404, FILE_NOT_FOUND);
        } else if signedUrlData.None? {
          SendError(res, 500, INTERNAL_ERROR);
        } else {
          res.Status(200);
          res.Json(LinkBody(signedUrlData.value));
        }
    }
  }

  /**
   * The handler. `db` and `storage` stand for what the two awaited calls
   * return; the calls actually made are returned in `calls`.
   */
  method Handle(req: Request, db: QueryReply, storage: SignReply, res: ServerResponse)
    returns (calls: Calls)
    requires res.Valid() && !res.headersSent
    modifies res
    ensures res.Valid() && res.finished
    ensures var r := Respond(req, db, storage);
      && res.statusCode == r.status
      && res.headers == old(res.headers) + r.headers
      && res.body == r.body
      && calls == r.calls
  {
    EveryReplyCarriesCors(req, db, storage);
    SetCorsHeaders(res);
    calls := NO_CALLS;

    if req.verb == "OPTIONS" {
      res.WriteHead(204);
      res.End();
      return;
    }

    if req.verb != "POST" {
      SendError(res, 405, METHOD_NOT_ALLOWED);
      return;
    }

    var idCardNumber: string;
    match req.body {
      case Unparsable =>
        SendError(res, 400, INVALID_JSON);
        return;
      case Parsed(body) =>
        if !IsTruthy(body) || !IsTruthy(Get(body, ID_FIELD)) {
          SendError(res, 400, MISSING_ID);
          return;
        }
        if ToStringThrows(Get(body, ID_FIELD)) {
          SendError(res, 400, INVALID_JSON);
          return;
        }
        idCardNumber := Trim(ToJsString(Get(body, ID_FIELD)));
    }

    calls := LookupAndSign(idCardNumber, db, storage, res);
  }
}
