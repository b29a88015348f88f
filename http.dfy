/** What the handlers see of an HTTP request and of gin's per-request context:
    the request's headers and parsed multipart form, the values handlers store
    under keys (`c.Set`), the sticky abort flag, the response's status and
    body, and the server log. */
module Http {
  import opened Wrappers
  import opened Disk

  /** A value stored in the context; `charm_id` is read back with a string type
      assertion. */
  datatype Value = Str(s: string) | NotString

  /** The bodies the handlers write, by meaning rather than by text. */
  datatype Message =
    | CharmIdNotFound        // "charm_id not found"
    | NoFilesFound           // "no files found in request"
    | ErrorOpeningData       // "error opening data: ..."
    | ErrorReadingData       // "error reading data: ..."
    | InternalServerError    // "internal server error: ..."
    | CannotPublish          // {"error":"charm server cannot publish"}
    | JwtInvalid             // the token validator's own error reply
    | UnexpectedError        // "unexpected error"
    | CommunicationFailed    // "communication with <url> failed: ..."
    | NoFilesUploaded        // "no files uploaded, invalid request"
    | FilesUploaded(n: nat)  // "<n> files uploaded!"

  /** What the server logs, by meaning. */
  datatype LogEvent =
    // the JWKS middleware
    | JwtParsingError | IssuerNotFound | InvalidCharmId | IssuerNotAccepted(host: string)
    | ValidatorNotCreated | JwtValidationFailed
    // the Charm identity middleware
    | RequestFrom(charmId: string) | CharmIdClaimNotFound | AuthAgainst
    | RemoteRequestNotCreated | RemoteRequestFailed | RemoteStatusInvalid
    // the legacy upload handler
    | UploadReceived | NoFilesFoundInForm | SavingFailed

  /** The step at which reading or copying an uploaded part's data fails, if any. */
  datatype Fault = NoFault | OpenFails | ReadFails | SeekFails | CopyFails(written: nat)

  /** One file of a multipart form: its `Content-Disposition` parameters as
      `mime.ParseMediaType` returns them (`None` when it cannot parse the
      header), the file name the multipart reader recorded, its data, and the
      step at which using the data fails. */
  datatype Part = Part(disposition: Option<map<string, string>>, headerFilename: string, content: Bytes, fault: Fault)

  /** The request as the handlers read it.  `form` is what parsing the body as
      a multipart form leaves in `r.MultipartForm` (`None` when it is nil). */
  datatype Request = Request(authorization: string, charmIdHeader: string, form: Option<map<string, seq<Part>>>)

  /** An HTTP status code. */
  type Status = n: nat | 100 <= n < 600 witness 200

  /** A client or server error status. */
  type ErrorStatus = n: nat | 400 <= n < 600 witness 400

  /** The status a response has after `code` is written (`0` writes nothing):
      the first status written wins, since gin sends the header with it and
      ignores later ones. */
  function WriteStatus(status: nat, code: nat): (r: nat)
    ensures status != 0 ==> r == status
    ensures r == 0 <==> status == 0 && code == 0
  {
    if status == 0 then code else status
  }

  /** What the Charm server's identity endpoint `/v1/id/<id>` does with a
      request: the request cannot be built, it is not delivered, or the
      server answers with a status. */
  datatype RemoteOutcome = RequestNotBuilt | TransportError | Replied(code: Status)

  /** The identity endpoint's address for a user. */
  function IdentityUrl(charmServerUrl: string, charmId: string): string
  {
    charmServerUrl + "/v1/id/" + charmId
  }

  class Context {
    const request: Request
    var keys: map<string, Value>
    var aborted: bool
    var status: nat          // 0 until a status is written
    var body: seq<Message>
    var log: seq<LogEvent>

    constructor (r: Request)
      ensures request == r && keys == map[] && !aborted && status == 0 && body == [] && log == []
    {
      request := r;
      keys, aborted, status, body, log := map[], false, 0, [], [];
    }

    /** The status the client receives: 200 when no handler wrote one. */
    function FinalStatus(): nat
      reads this
    {
      if status == 0 then 200 else status
    }

    /** `c.Set(key, v)`. */
    method Set(key: string, v: Value)
      modifies this
      ensures keys == old(keys)[key := v]
      ensures aborted == old(aborted) && status == old(status) && body == old(body) && log == old(log)
    {
      keys := keys[key := v];
    }

    /** `c.Abort()`: the handlers after this one will not run. */
    method Abort()
      modifies this
      ensures aborted
      ensures keys == old(keys) && status == old(status) && body == old(body) && log == old(log)
    {
      aborted := true;
    }

    /** Writes a status and, when given, a body. */
    method Respond(code: Status, msg: Option<Message>)
      modifies this
      ensures status == WriteStatus(old(status), code)
      ensures body == old(body) + (if msg.Some? then [msg.value] else [])
      ensures keys == old(keys) && aborted == old(aborted) && log == old(log)
    {
      status := WriteStatus(status, code);
      if msg.Some? {
        body := body + [msg.value];
      }
    }

    /** `c.AbortWithStatus(code)`. */
    method AbortWithStatus(code: Status)
      modifies this
      ensures aborted && status == WriteStatus(old(status), code)
      ensures keys == old(keys) && body == old(body) && log == old(log)
    {
      status := WriteStatus(status, code);
      aborted := true;
    }

    /** `c.AbortWithStatusJSON(code, msg)`. */
    method AbortWithMessage(code: Status, msg: Message)
      modifies this
      ensures aborted && status == WriteStatus(old(status), code)
      ensures body == old(body) + [msg]
      ensures keys == old(keys) && log == old(log)
    {
      status := WriteStatus(status, code);
      body := body + [msg];
      aborted := true;
    }

    /** `log.Printf(...)`. */
    method Log(e: LogEvent)
      modifies this
      ensures log == old(log) + [e]
      ensures keys == old(keys) && aborted == old(aborted) && status == old(status) && body == old(body)
    {
      log := log + [e];
    }
  }
}
