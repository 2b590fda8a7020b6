/**
 * The value logic of the HTTP source (pkg/pipeline/source/http_server.go):
 * server defaults, the HTTPLog constructor and accessors, and the rule by
 * which a request body becomes a log line. Listening, serving and the
 * response writer are not part of this model.
 */
module HttpSource {
  import opened Wrappers

  newtype byte = x: int | 0 <= x < 256

  /** '\n' */
  const Newline: byte := 10

  /** time.Duration: a count of nanoseconds. */
  type Duration = int

  const Second: Duration := 1_000_000_000

  const DefaultAddr: string := ":8008"
  const DefaultEndpoint: string := "/log"
  const DefaultTimeout: Duration := 5 * Second
  const UnknownAddr: string := "unknown"
  const NilLogMsg: string := "http log error: log is nil"

  const StatusOK: int := 200
  const StatusBadRequest: int := 400
  const StatusInternalServerError: int := 500

  /** A UUID's sixteen bytes. */
  type Uuid = seq<byte>

  /** The zero UUID, which a log built by the request handler carries. */
  const NilUuid: Uuid := seq(16, _ => 0)

  datatype HTTPLog = HTTPLog(addr: string, log: seq<byte>, id: Uuid)

  datatype HTTPConfig = HTTPConfig(addr: string, endpoint: string, readTimeout: Duration, writeTimeout: Duration)

  datatype HTTPServer = HTTPServer(addr: string, endpoint: string, readTimeout: Duration, writeTimeout: Duration)

  /**
   * NewHTTPLog: a nil log is an error; an empty address becomes "unknown".
   * newId is the outcome of uuid.NewUUID, whose failure is passed on.
   */
  function NewHTTPLog(log: Option<seq<byte>>, addr: string, newId: Result<Uuid, string>): (r: Result<HTTPLog, string>)
    ensures r.Success? <==> log.Some? && newId.Success?
    ensures log == None ==> r == Failure(NilLogMsg)
    ensures log.Some? && newId.Failure? ==> r == Failure(newId.error)
    ensures r.Success? ==> Read(r.value) == Success(log.value) && r.value.id == newId.value
    ensures r.Success? ==> Addr(r.value) != "" && (addr != "" ==> Addr(r.value) == addr)
    ensures r.Success? && addr == "" ==> Addr(r.value) == UnknownAddr
  {
    if log == None then Failure(NilLogMsg)
    else
      var a := if addr == "" then UnknownAddr else addr;
      match newId
      case Failure(err) => Failure(err)
      case Success(id) => Success(HTTPLog(a, log.value, id))
  }

  /** HTTPLog.Read: the stored bytes, never an error. */
  function Read(h: HTTPLog): Result<seq<byte>, string>
  {
    Success(h.log)
  }

  /** HTTPLog.Addr */
  function Addr(h: HTTPLog): string
  {
    h.addr
  }

  /**
   * NewHTTPServer: empty or zero settings take their defaults, set ones are
   * kept, and construction never fails.
   */
  function NewHTTPServer(conf: HTTPConfig): (r: Result<HTTPServer, string>)
    ensures r.Success?
    ensures r.value.addr != "" && r.value.endpoint != ""
    ensures r.value.readTimeout != 0 && r.value.writeTimeout != 0
    ensures conf.addr != "" ==> r.value.addr == conf.addr
    ensures conf.endpoint != "" ==> r.value.endpoint == conf.endpoint
    ensures conf.readTimeout != 0 ==> r.value.readTimeout == conf.readTimeout
    ensures conf.writeTimeout != 0 ==> r.value.writeTimeout == conf.writeTimeout
    ensures conf.addr == "" ==> r.value.addr == DefaultAddr
    ensures conf.endpoint == "" ==> r.value.endpoint == DefaultEndpoint
    ensures conf.readTimeout == 0 ==> r.value.readTimeout == DefaultTimeout
    ensures conf.writeTimeout == 0 ==> r.value.writeTimeout == DefaultTimeout
  {
    var addr := if conf.addr == "" then DefaultAddr else conf.addr;
    var endpoint := if conf.endpoint == "" then DefaultEndpoint else conf.endpoint;
    var readTimeout := if conf.readTimeout == 0 then DefaultTimeout else conf.readTimeout;
    var writeTimeout := if conf.writeTimeout == 0 then DefaultTimeout else conf.writeTimeout;
    Success(HTTPServer(addr, endpoint, readTimeout, writeTimeout))
  }

  /** Defaulting is idempotent: a server's own settings are kept as they are. */
  lemma NewHTTPServerIdempotent(conf: HTTPConfig)
    ensures var s := NewHTTPServer(conf).value;
            NewHTTPServer(HTTPConfig(s.addr, s.endpoint, s.readTimeout, s.writeTimeout)) == Success(s)
  {
  }

  /**
   * The body rule of the request handler: an empty body is rejected (None);
   * otherwise the body is forwarded ending in exactly the newline it had or
   * one appended newline.
   */
  function NormalizedBody(body: seq<byte>): (r: Option<seq<byte>>)
    ensures r == None <==> body == []
    ensures r.Some? ==> |r.value| > 0 && r.value[|r.value| - 1] == Newline
    ensures r.Some? ==> body <= r.value && |r.value| <= |body| + 1
  {
    if |body| == 0 then None
    else if body[|body| - 1] != Newline then Some(body + [Newline])
    else Some(body)
  }

  /** A body already ending in a newline is forwarded unchanged; any other gets exactly one appended. */
  lemma NormalizedBodyCases(body: seq<byte>)
    requires body != []
    ensures body[|body| - 1] == Newline ==> NormalizedBody(body) == Some(body)
    ensures body[|body| - 1] != Newline ==> NormalizedBody(body) == Some(body + [Newline])
  {
  }

  /** Normalising a normalised body changes nothing. */
  lemma NormalizedBodyIdempotent(body: seq<byte>)
    requires NormalizedBody(body).Some?
    ensures NormalizedBody(NormalizedBody(body).value) == NormalizedBody(body)
  {
  }

  /**
   * ServeHTTP, from reading the body to handing the log to the output
   * channel: `read` is the outcome of io.ReadAll, `outC` what the output
   * channel has carried so far. A read error answers 500 and an empty body
   * 400, both without output; otherwise the normalised body and the remote
   * address are sent on as one log and the answer is 200.
   */
  method ServeHTTP(read: Result<seq<byte>, string>, remoteAddr: string, outC: seq<HTTPLog>)
    returns (status: int, out: seq<HTTPLog>)
    ensures read.Failure? ==> status == StatusInternalServerError && out == outC
    ensures read.Success? && read.value == [] ==> status == StatusBadRequest && out == outC
    ensures read.Success? && read.value != [] ==>
              status == StatusOK && out == outC + [HTTPLog(remoteAddr, NormalizedBody(read.value).value, NilUuid)]
  {
    if read.Failure? {
      return StatusInternalServerError, outC;
    }
    var body := read.value;
    if |body| == 0 {
      return StatusBadRequest, outC;
    }
    if body[|body| - 1] != Newline {
      body := body + [Newline];
    }
    out := outC + [HTTPLog(remoteAddr, body, NilUuid)];
    status := StatusOK;
  }

  /** The source test: "test log\n" reaches the output unchanged. */
  lemma ServeTestLog()
    ensures var body: seq<byte> := [116, 101, 115, 116, 32, 108, 111, 103, 10];
            NormalizedBody(body) == Some(body)
  {
  }
}
