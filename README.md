# PAJSK report link handler — Dafny model

`api/generate-pdf.js` is a serverless function. It takes a student's identity
card number and answers with a time-limited signed link to that student's
PAJSK report. The report is stored as `reports/<id>.pdf` in the
`pajsk-reports` storage bucket.

The handler does five things in order:

1. It sets three cross-origin headers.
2. It answers a preflight `OPTIONS` request with 204 and turns away every
   method other than `POST` with 405.
3. It validates the body. The body must contain a truthy `idCardNumber`, which
   is then converted with `String(...)` and trimmed with `.trim()`.
4. It queries the `pajsk_records` table for that identifier. It classifies the
   reply:
   - the PostgREST "no rows" code `PGRST116` counts as "no record", which gives 404;
   - every other error code is a store failure, which gives 500.
5. When a record exists, it asks storage for a signed URL that expires after
   3600 seconds. It returns that URL with 200, or 404 on a storage error. Any
   exception inside this stage gives 500.

The model has six modules:

- `Wrappers` holds the `Option` and `Result` types.
- `HttpResponse` models the response object as the class `ServerResponse`.
  Its headers map is updated in place, and the response is written once.
- `GeneratePdf` holds the handler's constants and two definitions of the handler:
  - `GeneratePdf.Respond` is the handler's decision table as a pure function.
    Its inputs are the request and the two replies from the foreign calls. Its
    output is a `Reply`: the status, the headers, the optional JSON body, and
    the foreign calls made, with their arguments.
  - `GeneratePdf.Handle` is the handler itself. It writes step by step into a
    `ServerResponse`: it sets the headers, then makes one terminal write.
    `Handle` is proved to leave exactly the status and body that `Respond`
    describes. The headers it leaves are the ones the response already had,
    plus the three that `Respond` describes. It makes exactly the calls that
    `Respond` describes.
- `JsValues` models the JavaScript values a parsed body may hold, with
  truthiness, property access and `String(...)`.
- `JsStrings` models `String.prototype.trim` over the WhiteSpace and
  LineTerminator code points of sections 12.2 and 12.3 of ECMA-262.
- `GeneratePdfProperties` states the handler's promises as lemmas over
  `Respond`. Each reply of the decision table has a lemma that holds in both
  directions:
  - 204 and 405: `MethodGateExactly`;
  - the two 400 messages: `MissingIdRejected` and `UnparsableBodyRejected`;
  - the two 404 messages: `NoRowIsNotFound` and `FileNotFoundExactly`;
  - the two 500 messages: `QueryFaultIsServerError` and `ThrowIsInternalError`;
  - 200: `SuccessCarriesSignedUrl`.

The functions that compute the model have no row of their own, because their
contracts are stated by the lemmas in the table. Each models these lines of
`api/generate-pdf.js`:

- `GeneratePdf.Respond`: the whole handler, lines 23-98.
- `GeneratePdf.ReadIdCardNumber`: body validation in its try block, lines 40-49.
- `GeneratePdf.IdCardNumber`: the conversion and trim at line 46.
- `GeneratePdf.Lookup`: the second try block, lines 56-97.
- `GeneratePdf.ClassifyQuery`: the two query checks, lines 64-71.
- `GeneratePdf.FilePath`: the path template at line 75.
- `GeneratePdf.SignRequestFor`: the signing arguments at lines 16-17 and 78-80.
- `JsStrings.Trim`: `.trim()` at line 46.
- `JsValues.ToJsString`, `JsValues.NumberToString` and `JsValues.ToStringThrows`: `String(...)` at line 46.
- `JsValues.IsTruthy` and `JsValues.Get`: the test `!body || !body.idCardNumber` at line 43.

The Supabase client is not modelled. Its two awaited calls become inputs:

- `QueryReply` is what `.single()` resolves to, or that it threw;
- `SignReply` is what `createSignedUrl` resolves to, or that it threw.

The body getter of the hosting platform becomes `BodyAccess.Unparsable` when it
throws.

Two behaviours of the code are worth stating outright, and the model keeps
both:

1. The code tests the identifier's truthiness before trimming it
   (`api/generate-pdf.js:43`, then `:46`). So a non-empty identifier made only
   of whitespace passes validation and is looked up as the empty string.
   `WhitespaceIdLooksUpEmpty` states this.
2. The code answers every storage error with 404 "no report file"
   (`api/generate-pdf.js:82-85`). That includes errors that have nothing to do
   with a missing file, such as an access or network failure.
   `StorageErrorIsNotFound` and `FileNotFoundExactly` state this.

## Model

| member | source | states |
|---|---|---|
| GeneratePdf.Handle | api/generate-pdf.js:23-98 | the handler leaves the response finished, with exactly the status and body of `Respond`, the cross-origin headers added to whatever headers were there before, and exactly the foreign calls `Respond` lists |
| GeneratePdf.SetCorsHeaders | api/generate-pdf.js:25-27 | the three `setHeader` calls add exactly the three cross-origin headers and change nothing else |
| GeneratePdf.LookupAndSign | api/generate-pdf.js:56-97 | the try block sends exactly the status and body of the lookup stage, and makes exactly the query, and the signing request if any, that the lookup stage lists |
| GeneratePdf.SendError | api/generate-pdf.js:36 | `res.status(s).json({ error: m })` finishes the response with status s and body `{ error: m }`, and leaves the headers unchanged |
| GeneratePdf.EveryReplyCarriesCors | api/generate-pdf.js:25-27 | every reply, 204, 4xx and 5xx included, carries exactly the three cross-origin headers |
| GeneratePdf.LookupCarriesCors | api/generate-pdf.js:56-97 | every outcome of the lookup stage carries the cross-origin headers |
| HttpResponse.ServerResponse.SetHeader | api/generate-pdf.js:25 | setting a header replaces any earlier value of that header and changes nothing else; it is allowed only before the headers are sent |
| HttpResponse.ServerResponse.WriteHead | api/generate-pdf.js:30 | sets the status and sends the headers, with no body |
| HttpResponse.ServerResponse.End | api/generate-pdf.js:31 | ends the response and keeps the status, headers and body |
| HttpResponse.ServerResponse.Status | api/generate-pdf.js:36 | sets the status to send and changes nothing else |
| HttpResponse.ServerResponse.Json | api/generate-pdf.js:36 | sends the value as the body and ends the response; status and headers are kept |
| GeneratePdfProperties.PreflightIsNoOp | api/generate-pdf.js:29-33 | an OPTIONS request gets 204, no body, and neither a query nor a signing request |
| GeneratePdfProperties.MethodGateExactly | api/generate-pdf.js:29-38 | 204 comes if and only if the method is OPTIONS; 405 comes if and only if the method is neither POST nor OPTIONS |
| GeneratePdfProperties.OtherMethodsRejected | api/generate-pdf.js:35-38 | any method other than POST and OPTIONS gets 405 `Method Not Allowed.` and causes no foreign call |
| GeneratePdfProperties.MethodRejectionIgnoresBody | api/generate-pdf.js:29-38 | a non-POST reply depends on the method alone, not on the body or on the stores |
| GeneratePdfProperties.CarriesIdMeans | api/generate-pdf.js:43 | the truthiness test passes exactly for an object whose `idCardNumber` is truthy |
| GeneratePdfProperties.MissingIdRejected | api/generate-pdf.js:43-45 | 400 "missing identifier" with no foreign call happens if and only if a POST body was read and is falsy or lacks a truthy `idCardNumber` |
| GeneratePdfProperties.UnparsableBodyRejected | api/generate-pdf.js:41-49 | 400 "invalid JSON" with no foreign call happens if and only if something in the validation try block throws: the POST body cannot be read, or `String(...)` of its identifier throws because the identifier is an object with its own `toString` key |
| GeneratePdfProperties.ObjectIdWithOwnToStringIsInvalidJson | api/generate-pdf.js:46-48 | `{"idCardNumber": {"toString": 1}}` gets 400 "invalid JSON", with no foreign call |
| GeneratePdfProperties.StoppedEarlyCallsNothing | api/generate-pdf.js:29-49 | a request stopped at the method gate or by validation gets 204, 400 or 405 and causes no foreign call |
| GeneratePdfProperties.ReachingLookupMeansLookup | api/generate-pdf.js:40-97 | a POST that passes validation gets what the lookup stage produces for the trimmed identifier |
| GeneratePdfProperties.QueriedIdIsTrimmed | api/generate-pdf.js:46 | the identifier that is queried has no whitespace at either end, and trimming it again changes nothing |
| GeneratePdfProperties.WhitespaceIdLooksUpEmpty | api/generate-pdf.js:43-46 | a non-empty identifier made only of whitespace is not rejected; it is queried as the empty string |
| GeneratePdfProperties.NumericIdLooksUpDecimal | api/generate-pdf.js:46 | a non-zero numeric identifier is queried as its decimal numeral |
| GeneratePdfProperties.NumeralHasNoEdgeWhitespace | api/generate-pdf.js:46 | `String(n)` of an integer has no whitespace to trim |
| GeneratePdfProperties.LookupStatuses | api/generate-pdf.js:56-97 | the lookup stage always queries the given identifier and answers 200, 404 or 500 with a body; it never uses a validation message |
| GeneratePdfProperties.QueryFaultIsServerError | api/generate-pdf.js:64-67 | 500 "query failed" without a signing request happens if and only if the query resolved with an error whose code is not PGRST116 |
| GeneratePdfProperties.NoRowIsNotFound | api/generate-pdf.js:69-71 | 404 "no record" without a signing request happens if and only if the query resolved with no error, or with PGRST116, and no record |
| GeneratePdfProperties.NoRowsCodeIsNeverQueryFault | api/generate-pdf.js:64 | the PGRST116 code never gives "query failed"; with no record it gives 404 "no record" |
| GeneratePdfProperties.StorageRequestShape | api/generate-pdf.js:58-80 | storage is consulted exactly when a record was found. It is consulted with bucket `pajsk-reports`, path `reports/<id>.pdf` and expiry 3600, where `<id>` is the same trimmed identifier the query used |
| GeneratePdfProperties.LookupSigning | api/generate-pdf.js:75-80 | within the lookup stage, the signing request is made exactly when a record was found, and its arguments are built from the identifier |
| GeneratePdfProperties.IdOfFilePath | api/generate-pdf.js:75 | the identifier can be read back from the report path |
| GeneratePdfProperties.FilePathInjective | api/generate-pdf.js:75 | different identifiers never share a report path |
| GeneratePdfProperties.StorageErrorIsNotFound | api/generate-pdf.js:82-86 | once a record is found, 404 "no report file" happens if and only if storage reported an error |
| GeneratePdfProperties.FileNotFoundExactly | api/generate-pdf.js:82-86 | for any request, 404 "no report file" happens if and only if the request passed validation, a record was found and storage reported an error |
| GeneratePdfProperties.SuccessCarriesSignedUrl | api/generate-pdf.js:89-92 | 200 happens if and only if a record was found and storage returned a link without error; the body then carries that link and the success message |
| GeneratePdfProperties.ThrowIsInternalError | api/generate-pdf.js:94-97 | 500 "internal error" happens if and only if something threw inside the try block: the query, the signing request, or reading `signedUrl` of a null result |
| GeneratePdfProperties.EveryRequestAnswered | api/generate-pdf.js:23-98 | every request gets a status from the decision table; a JSON body comes exactly when the status is not 204; the three cross-origin headers are always present |
| GeneratePdfProperties.UnknownIdIsNotFound | api/generate-pdf.js:58-71 | a non-empty, already trimmed identifier with no record gets 404 "no record"; it is queried verbatim and storage is not consulted |
| GeneratePdfProperties.TrimmedStringIdIsKept | api/generate-pdf.js:43-46 | a non-empty string identifier with no whitespace at its ends passes validation unchanged |
| GeneratePdfProperties.NullRecordIsNotFound | api/generate-pdf.js:64-71 | a null record, with no error or with PGRST116, gives 404 "no record" after the query alone |
| JsStrings.LeadingCount | api/generate-pdf.js:46 | counts the whitespace characters that begin the string, and stops at the first character that is not whitespace |
| JsStrings.TrailingCount | api/generate-pdf.js:46 | counts the whitespace characters that end the string, and stops at the last character that is not whitespace |
| JsStrings.TrimHasCleanEdges | api/generate-pdf.js:46 | `trim()` leaves no whitespace at either end and never lengthens its input |
| JsStrings.TrimDecomposes | api/generate-pdf.js:46 | `trim()` removes only whitespace, and only at the two ends |
| JsStrings.TrimRecoversCore | api/generate-pdf.js:46 | trimming any whitespace from around a string with clean edges gives that string back |
| JsStrings.TrimIdempotent | api/generate-pdf.js:46 | trimming twice is the same as trimming once |
| JsStrings.WhitespaceOnlyTrimsToEmpty | api/generate-pdf.js:46 | a string made only of whitespace trims to the empty string |
| JsStrings.TrimFixesExactlyUntrimmed | api/generate-pdf.js:46 | `trim()` leaves a string unchanged if and only if it has no whitespace at either end |
| JsValues.DecimalString | api/generate-pdf.js:46 | the decimal numeral is non-empty, is made of digits, and has no leading zero |
| JsValues.DecimalRoundTrip | api/generate-pdf.js:46 | reading the decimal numeral back gives the number |
| JsValues.NumberToStringRoundTrip | api/generate-pdf.js:46 | `String(n)` of a safe integer is a well-formed numeral and reads back as n |
| JsValues.NegativeNumeral | api/generate-pdf.js:46 | a minus sign before a decimal numeral gives a numeral that reads back as the negated number |
| JsValues.NonNegativeNumeral | api/generate-pdf.js:46 | a decimal numeral is a well-formed numeral and reads back as its number |

## Left out

- Supabase client construction at `api/generate-pdf.js:52-54` is not modelled. `createClient` is a foreign call, and it is made outside the try block. If it threw, the handler would write no response. The model assumes it returns.
- The query and signed-URL calls are not modelled. Their replies, or the fact that awaiting them threw, are inputs to `Respond` and `Handle`. The model records which calls were made and with what arguments.
- The environment-variable reads and their presence check are not modelled. They only log and do not change control flow.
- `console.error` logging is not modelled.
- Async scheduling is not modelled; the awaited calls are taken in order, synchronously.
- The body is parsed by the hosting platform. The model treats it as an input that either gives a value or throws.
- On-the-fly PDF rendering is not part of this handler.
- `JsValues.JsValue`: number ids are modelled only as safe integers. Fractions, exponents, NaN, infinities and `-0` with their `String(...)` forms are not modelled. Arrays are not modelled either. An object with its own `toString` key makes `String(...)` throw, which gives 400 "invalid JSON". Any other object converts to `[object Object]`; an own `valueOf` key does not change that, because `toString` is tried first. `JsValues.Get` models an own property of an object only, with no prototype chain.
- `GeneratePdf.SignReply`: when storage resolves without error, `data` is either a link or null, as the Supabase client documents. A non-null `data` without `signedUrl` is not modelled. The source would answer that case with 200 and a body with no `pdfUrl` key, because JSON serialisation drops undefined values.
- `HttpResponse.ServerResponse.Json`: the JSON serialisation and the `Content-Type` header the platform adds are not modelled.
- `HttpResponse.ServerResponse.SetHeader`: Node compares header names case-insensitively; the model compares them exactly. The handler always uses the same spelling, so this does not change any reply.
- `JsStrings.Trim`: whitespace is the fixed set of ECMAScript WhiteSpace and LineTerminator code points, with category Zs as listed in Unicode 15. A Dafny `char` is a Unicode scalar value, so a character outside the Basic Multilingual Plane is one `char`, as it is one code point to `trim`. Lone surrogates (UTF-16 code units with no partner) are not modelled.
