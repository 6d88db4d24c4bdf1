/**
 * The part of the hosting platform's response object that the handler uses:
 * Node's `setHeader`, `writeHead` and `end`, and the platform helpers
 * `status` and `json`. Headers may change only before they are sent; the
 * response is written once.
 */
module HttpResponse {
  import opened Wrappers

  /** The JSON values the handler sends: strings and objects with ordered members. */
  datatype JsonValue = JString(s: string) | JObject(members: seq<(string, JsonValue)>)

  class ServerResponse {
    var statusCode: int
    var headers: map<string, string>
    var headersSent: bool
    var body: Option<JsonValue>
    var finished: bool

    /** A finished response has sent its headers; nothing is in the body before they are sent. */
    ghost predicate Valid()
      reads this
    {
      (finished ==> headersSent) && (!headersSent ==> body == None)
    }

    /** A new response: status 200, no headers, nothing sent. */
    constructor ()
      ensures Valid()
      ensures statusCode == 200 && headers == map[] && !headersSent && body == None && !finished
    {
      statusCode := 200;
      headers := map[];
      headersSent := false;
      body := None;
      finished := false;
    }

    /** `res.setHeader(name, value)`: replaces any earlier value of the header. */
    method SetHeader(name: string, value: string)
      requires Valid() && !headersSent
      modifies this
      ensures Valid()
      ensures headers == old(headers)[name := value]
      ensures statusCode == old(statusCode) && headersSent == old(headersSent)
      ensures body == old(body) && finished == old(finished)
    {
      headers := headers[name := value];
    }

    /** `res.status(code)`: sets the status to send; the platform returns `res` for chaining. */
    method Status(code: int)
      requires Valid() && !headersSent
      modifies this
      ensures Valid()
      ensures statusCode == code
      ensures headers == old(headers) && headersSent == old(headersSent)
      ensures body == old(body) && finished == old(finished)
    {
      statusCode := code;
    }

    /** `res.json(value)`: sends the headers and value as the body, and ends the response. */
    method Json(value: JsonValue)
      requires Valid() && !headersSent
      modifies this
      ensures Valid()
      ensures headersSent && finished && body == Some(value)
      ensures statusCode == old(statusCode) && headers == old(headers)
    {
      headersSent := true;
      body := Some(value);
      finished := true;
    }

    /** `res.writeHead(code)`: sends the status line and the headers set so far. */
    method WriteHead(code: int)
      requires Valid() && !headersSent
      modifies this
      ensures Valid()
      ensures statusCode == code && headersSent
      ensures headers == old(headers) && body == old(body) && finished == old(finished)
    {
      statusCode := code;
      headersSent := true;
    }

    /** `res.end()` with no data: sends the headers if still pending and ends the response. */
    method End()
      requires Valid() && !finished
      modifies this
      ensures Valid()
      ensures headersSent && finished
      ensures statusCode == old(statusCode) && headers == old(headers) && body == old(body)
    {
      headersSent := true;
      finished := true;
    }
  }
}
