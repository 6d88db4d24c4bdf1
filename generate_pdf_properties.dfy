/**
 * What the handler promises, stated over Respond: one lemma per branch of the
 * decision table, each in both directions where the branch is identified by
 * its message, plus the facts about the identifier and the storage path.
 */
module GeneratePdfProperties {
  import opened Wrappers
  import opened JsStrings
  import opened JsValues
  import opened HttpResponse
  import opened GeneratePdf

  /** The request gets past the method gate and body validation. */
  predicate ReachesLookup(req: Request) {
    req.verb == "POST" && ReadIdCardNumber(req.body).Success?
  }

  /** The identifier a request that reaches the lookup works with. */
  function QueriedId(req: Request): string
    requires ReachesLookup(req)
  {
    ReadIdCardNumber(req.body).value
  }

  /** A request that reaches the lookup gets what the lookup stage produces for its identifier. */
  lemma ReachingLookupMeansLookup(req: Request, db: QueryReply, storage: SignReply)
    requires ReachesLookup(req)
    ensures Respond(req, db, storage) == Lookup(QueriedId(req), db, storage)
  {
  }

  /** A request stopped at the method gate or by validation causes no foreign call. */
  lemma StoppedEarlyCallsNothing(req: Request, db: QueryReply, storage: SignReply)
    requires !ReachesLookup(req)
    ensures Respond(req, db, storage).calls == NO_CALLS
    ensures Respond(req, db, storage).status in {204, 400, 405}
  {
  }

  /** A preflight request gets 204 with no body and consults neither the records nor storage. */
  lemma PreflightIsNoOp(req: Request, db: QueryReply, storage: SignReply)
    requires req.verb == "OPTIONS"
    ensures var r := Respond(req, db, storage);
      r.status == 204 && r.body == None && r.calls == NO_CALLS
  {
  }

  /** Any method other than POST and OPTIONS gets 405, whatever the body and the stores say. */
  lemma OtherMethodsRejected(req: Request, db: QueryReply, storage: SignReply)
    requires req.verb != "OPTIONS" && req.verb != "POST"
    ensures var r := Respond(req, db, storage);
      && r.status == 405
      && r.body == Some(ErrorBody(METHOD_NOT_ALLOWED))
      && r.calls == NO_CALLS
  {
  }

  /**
   * The method gate decides the two statuses it produces: 204 comes for OPTIONS
   * and only for it, and 405 comes for a method other than POST and OPTIONS and
   * only for such a method.
   */
  lemma MethodGateExactly(req: Request, db: QueryReply, storage: SignReply)
    ensures Respond(req, db, storage).status == 204 <==> req.verb == "OPTIONS"
    ensures Respond(req, db, storage).status == 405 <==> (req.verb != "OPTIONS" && req.verb != "POST")
  {
    if ReachesLookup(req) {
      LookupStatuses(QueriedId(req), db, storage);
    }
  }

  /** Two requests with the same non-POST method get the same reply. */
  lemma MethodRejectionIgnoresBody(req1: Request, req2: Request,
                                   db1: QueryReply, db2: QueryReply,
                                   storage1: SignReply, storage2: SignReply)
    requires req1.verb == req2.verb && req1.verb != "POST"
    ensures Respond(req1, db1, storage1) == Respond(req2, db2, storage2)
  {
  }

  /** What "the body carries an identifier" means: an object whose idCardNumber is truthy. */
  lemma CarriesIdMeans(body: JsValue)
    ensures CarriesId(body) <==>
      body.Obj? && ID_FIELD in body.properties && IsTruthy(body.properties[ID_FIELD])
  {
  }

  /**
   * A POST whose body is absent (falsy) or lacks a truthy idCardNumber, and only
   * such a POST, gets 400 "missing identifier", and nothing is looked up.
   */
  lemma MissingIdRejected(req: Request, db: QueryReply, storage: SignReply)
    ensures var r := Respond(req, db, storage);
      (r.status == 400 && r.body == Some(ErrorBody(MISSING_ID)) && r.calls == NO_CALLS)
      <==> (req.verb == "POST" && req.body.Parsed? && !CarriesId(req.body.value))
  {
    var r := Respond(req, db, storage);
    if req.verb == "POST" && ReadIdCardNumber(req.body).Success? {
      LookupStatuses(ReadIdCardNumber(req.body).value, db, storage);
    }
  }

  /**
   * 400 "invalid JSON" comes when something in the validation try block
   * throws, and only then. Either the body cannot be read, or `String(...)`
   * of the identifier throws because the identifier is an object with its own
   * `toString` key.
   */
  lemma UnparsableBodyRejected(req: Request, db: QueryReply, storage: SignReply)
    ensures var r := Respond(req, db, storage);
      (r.status == 400 && r.body == Some(ErrorBody(INVALID_JSON)) && r.calls == NO_CALLS)
      <==> (&& req.verb == "POST"
            && (|| req.body.Unparsable?
                || (&& req.body.Parsed? && CarriesId(req.body.value)
                    && Get(req.body.value, ID_FIELD).Obj?
                    && "toString" in Get(req.body.value, ID_FIELD).properties)))
  {
    if req.verb == "POST" && ReadIdCardNumber(req.body).Success? {
      LookupStatuses(ReadIdCardNumber(req.body).value, db, storage);
    }
  }

  /** `{"idCardNumber": {"toString": 1}}`: `String(...)` of the identifier throws, so the reply is 400 "invalid JSON" and nothing is looked up. */
  lemma ObjectIdWithOwnToStringIsInvalidJson(db: QueryReply, storage: SignReply)
    ensures var id := Obj(map["toString" := Num(1)]);
      var r := Respond(Request("POST", Parsed(Obj(map[ID_FIELD := id]))), db, storage);
      && r.status == 400
      && r.body == Some(JObject([("error", JString("请求错误：JSON 格式无效。"))]))
      && r.calls == NO_CALLS
  {
    var id := Obj(map["toString" := Num(1)]);
    var body := Obj(map[ID_FIELD := id]);
    assert Get(body, ID_FIELD) == id;
    assert CarriesId(body) && IdConversionThrows(body);
  }

  /** The identifier that is queried has no whitespace at either end, and trimming it again changes nothing. */
  lemma QueriedIdIsTrimmed(req: Request)
    requires ReachesLookup(req)
    ensures NoEdgeWhitespace(QueriedId(req))
    ensures Trim(QueriedId(req)) == QueriedId(req)
  {
    TrimHasCleanEdges(ToJsString(Get(req.body.value, ID_FIELD)));
    TrimIdempotent(ToJsString(Get(req.body.value, ID_FIELD)));
  }

  /**
   * The truthiness check comes before trimming: a non-empty, whitespace-only
   * identifier is not rejected but is looked up as the empty string.
   */
  lemma WhitespaceIdLooksUpEmpty(req: Request, db: QueryReply, storage: SignReply, s: string)
    requires req.verb == "POST" && req.body.Parsed? && req.body.value.Obj?
    requires ID_FIELD in req.body.value.properties
    requires req.body.value.properties[ID_FIELD] == Str(s)
    requires s != [] && AllWhitespace(s)
    ensures Respond(req, db, storage).calls.query == Some(LookupQuery(""))
  {
    WhitespaceOnlyTrimsToEmpty(s);
  }

  /** A numeric identifier is looked up as its decimal numeral. */
  lemma NumericIdLooksUpDecimal(req: Request, db: QueryReply, storage: SignReply, n: SafeInteger)
    requires req.verb == "POST" && req.body.Parsed? && req.body.value.Obj?
    requires ID_FIELD in req.body.value.properties
    requires req.body.value.properties[ID_FIELD] == Num(n) && n != 0
    ensures Respond(req, db, storage).calls.query == Some(LookupQuery(NumberToString(n)))
  {
    var s := NumberToString(n);
    NumeralHasNoEdgeWhitespace(n);
    TrimFixesExactlyUntrimmed(s);
    assert Get(req.body.value, ID_FIELD) == Num(n);
    assert ReadIdCardNumber(req.body) == Success(s);
    ReachingLookupMeansLookup(req, db, storage);
    LookupStatuses(s, db, storage);
  }

  /** `String(n)` starts with a minus sign or a digit and ends with a digit. */
  lemma NumeralHasNoEdgeWhitespace(n: SafeInteger)
    ensures NoEdgeWhitespace(NumberToString(n))
  {
    var d := DecimalString(if n < 0 then -(n as int) else n as int);
    var s := NumberToString(n);
    if n < 0 {
      assert s == "-" + d;
      assert s[|s| - 1] == d[|d| - 1];
    }
  }

  /** The statuses and bodies that the lookup stage can produce. */
  lemma LookupStatuses(id: string, db: QueryReply, storage: SignReply)
    ensures var r := Lookup(id, db, storage);
      && r.status in {200, 404, 500}
      && r.calls.query == Some(LookupQuery(id))
      && r.body.Some?
      && r.body != Some(ErrorBody(MISSING_ID))
      && r.body != Some(ErrorBody(INVALID_JSON))
      && r.body != Some(ErrorBody(METHOD_NOT_ALLOWED))
  {
  }

  /**
   * The "no rows" rule: a query error whose code is not PGRST116, and only
   * that, gets 500 "query failed"; the store's error code is not passed on and
   * storage is not consulted.
   */
  lemma QueryFaultIsServerError(req: Request, db: QueryReply, storage: SignReply)
    ensures var r := Respond(req, db, storage);
      (r.status == 500 && r.body == Some(ErrorBody(QUERY_FAILED)) && r.calls.signing == None)
      <==> (ReachesLookup(req) && db.QueryResolved? && db.error.Some? && db.error.value.code != NO_ROWS_CODE)
  {
    if ReachesLookup(req) {
      LookupStatuses(QueriedId(req), db, storage);
    }
  }

  /**
   * With no error, or the PGRST116 "no rows" error, a null record, and only
   * that, gets 404 "no record"; storage is not consulted.
   */
  lemma NoRowIsNotFound(req: Request, db: QueryReply, storage: SignReply)
    ensures var r := Respond(req, db, storage);
      (r.status == 404 && r.body == Some(ErrorBody(RECORD_NOT_FOUND)) && r.calls.signing == None)
      <==> (&& ReachesLookup(req) && db.QueryResolved?
            && (db.error.None? || db.error.value.code == NO_ROWS_CODE)
            && !IsTruthy(db.data))
  {
    if ReachesLookup(req) {
      LookupStatuses(QueriedId(req), db, storage);
    }
  }

  /** The PGRST116 error on its own is never a server error. */
  lemma NoRowsCodeIsNeverQueryFault(req: Request, data: JsValue, storage: SignReply)
    requires ReachesLookup(req)
    ensures var r := Respond(req, QueryResolved(data, Some(PostgrestError(NO_ROWS_CODE))), storage);
      r.body != Some(ErrorBody(QUERY_FAILED))
      && (!IsTruthy(data) ==> r.status == 404 && r.body == Some(ErrorBody(RECORD_NOT_FOUND)))
  {
  }

  /**
   * Storage is consulted exactly when a record was found, and then with the
   * fixed bucket, the path built from the same trimmed identifier that was
   * queried, and a 3600-second expiry.
   */
  lemma StorageRequestShape(req: Request, db: QueryReply, storage: SignReply)
    ensures var r := Respond(req, db, storage);
      r.calls.signing.Some? <==> (ReachesLookup(req) && ClassifyQuery(db) == RecordFound)
    ensures var r := Respond(req, db, storage);
      r.calls.signing.Some? ==>
        && r.calls.query == Some(Query("pajsk_records", "id_card", "id_card", QueriedId(req)))
        && r.calls.signing.value.bucket == "pajsk-reports"
        && r.calls.signing.value.path == "reports/" + QueriedId(req) + ".pdf"
        && r.calls.signing.value.expiresIn == 3600
        && IdOfPath(r.calls.signing.value.path) == Some(r.calls.query.value.value)
  {
    if ReachesLookup(req) {
      ReachingLookupMeansLookup(req, db, storage);
      LookupSigning(QueriedId(req), db, storage);
      IdOfFilePath(QueriedId(req));
    } else {
      StoppedEarlyCallsNothing(req, db, storage);
    }
  }

  lemma LookupSigning(id: string, db: QueryReply, storage: SignReply)
    ensures var r := Lookup(id, db, storage);
      && (r.calls.signing.Some? <==> ClassifyQuery(db) == RecordFound)
      && (r.calls.signing.Some? ==> r.calls.signing == Some(SignRequestFor(id)))
  {
  }

  /** IdOfPath undoes FilePath. */
  lemma IdOfFilePath(id: string)
    ensures IdOfPath(FilePath(id)) == Some(id)
  {
    var p := FilePath(id);
    assert p[..8] == "reports/";
    assert p[|p| - 4..] == ".pdf";
    assert p[8..|p| - 4] == id;
  }

  /** Different identifiers never share a report path. */
  lemma FilePathInjective(a: string, b: string)
    requires FilePath(a) == FilePath(b)
    ensures a == b
  {
    IdOfFilePath(a);
    IdOfFilePath(b);
  }

  /** Once a record is found, a storage error, and only that, gets 404 "no report file". */
  lemma StorageErrorIsNotFound(req: Request, db: QueryReply, storage: SignReply)
    requires ReachesLookup(req) && ClassifyQuery(db) == RecordFound
    ensures var r := Respond(req, db, storage);
      (r.status == 404 && r.body == Some(ErrorBody(FILE_NOT_FOUND)))
      <==> (storage.SignResolved? && storage.failed)
  {
  }

  /**
   * 404 "no report file" comes only from a storage error after a record is
   * found, whatever the request and the stores.
   */
  lemma FileNotFoundExactly(req: Request, db: QueryReply, storage: SignReply)
    ensures Respond(req, db, storage).body == Some(ErrorBody(FILE_NOT_FOUND)) <==>
      (&& ReachesLookup(req) && ClassifyQuery(db) == RecordFound
       && storage.SignResolved? && storage.failed)
  {
    if ReachesLookup(req) {
      LookupStatuses(QueriedId(req), db, storage);
    }
  }

  /**
   * A 200 reply happens exactly when a record was found and storage returned
   * a link without error, and it carries that link and the success message.
   */
  lemma SuccessCarriesSignedUrl(req: Request, db: QueryReply, storage: SignReply)
    ensures var r := Respond(req, db, storage);
      r.status == 200 <==>
        (&& ReachesLookup(req) && ClassifyQuery(db) == RecordFound
         && storage.SignResolved? && !storage.failed && storage.data.Some?)
    ensures var r := Respond(req, db, storage);
      r.status == 200 ==>
        r.body == Some(JObject([("pdfUrl", JString(storage.data.value)), ("message", JString("成功获取成绩单链接。"))]))
  {
    if ReachesLookup(req) {
      LookupStatuses(QueriedId(req), db, storage);
    }
  }

  /**
   * A throw anywhere in the try block (the query, the signing request, or
   * reading `signedUrl` of a null result), and only that, gets 500 "internal error".
   */
  lemma ThrowIsInternalError(req: Request, db: QueryReply, storage: SignReply)
    ensures var r := Respond(req, db, storage);
      (r.status == 500 && r.body == Some(ErrorBody(INTERNAL_ERROR)))
      <==> (&& ReachesLookup(req)
            && (|| db.QueryThrew?
                || (&& ClassifyQuery(db) == RecordFound
                    && (storage.SignThrew? || storage == SignResolved(None, false)))))
  {
    if ReachesLookup(req) {
      LookupStatuses(QueriedId(req), db, storage);
    }
  }

  /**
   * Every request gets exactly one of the statuses of the decision table, a
   * JSON body exactly when the status is not 204, and the three cross-origin headers.
   */
  lemma EveryRequestAnswered(req: Request, db: QueryReply, storage: SignReply)
    ensures var r := Respond(req, db, storage);
      && r.status in {200, 204, 400, 404, 405, 500}
      && (r.body.None? <==> r.status == 204)
      && r.headers == map[
        "Access-Control-Allow-Origin" := "*",
        "Access-Control-Allow-Methods" := "POST, OPTIONS",
        "Access-Control-Allow-Headers" := "Content-Type"]
  {
    EveryReplyCarriesCors(req, db, storage);
    if ReachesLookup(req) {
      LookupStatuses(QueriedId(req), db, storage);
    }
  }

  /**
   * Any non-empty, already trimmed identifier with no record gets 404 "no
   * record", is queried verbatim, and storage is not consulted.
   */
  lemma UnknownIdIsNotFound(id: string, error: Option<PostgrestError>, storage: SignReply)
    requires id != [] && NoEdgeWhitespace(id)
    requires error.None? || error.value.code == NO_ROWS_CODE
    ensures var req := Request("POST", Parsed(Obj(map[ID_FIELD := Str(id)])));
      var r := Respond(req, QueryResolved(Null, error), storage);
      && r.status == 404
      && r.body == Some(JObject([("error", JString("未找到该身份证号码的 PAJSK 报告记录。"))]))
      && r.calls == Calls(Some(Query("pajsk_records", "id_card", "id_card", id)), None)
  {
    var req := Request("POST", Parsed(Obj(map[ID_FIELD := Str(id)])));
    TrimmedStringIdIsKept(id);
    ReachingLookupMeansLookup(req, QueryResolved(Null, error), storage);
    NullRecordIsNotFound(id, error, storage);
  }

  lemma TrimmedStringIdIsKept(id: string)
    requires id != [] && NoEdgeWhitespace(id)
    ensures ReadIdCardNumber(Parsed(Obj(map[ID_FIELD := Str(id)]))) == Success(id)
  {
    var body := Obj(map[ID_FIELD := Str(id)]);
    assert Get(body, ID_FIELD) == Str(id);
    assert CarriesId(body);
    assert IdCardNumber(body) == Trim(id);
    TrimFixesExactlyUntrimmed(id);
    assert Trim(id) == id;
  }

  lemma NullRecordIsNotFound(id: string, error: Option<PostgrestError>, storage: SignReply)
    requires error.None? || error.value.code == NO_ROWS_CODE
    ensures Lookup(id, QueryResolved(Null, error), storage)
      == ErrorReply(404, RECORD_NOT_FOUND, Calls(Some(LookupQuery(id)), None))
  {
    assert !IsQueryFault(error);
  }
}
