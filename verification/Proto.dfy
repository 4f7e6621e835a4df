/**
 The message layer: errors, messages, their validation, and the JSON form in
 which they cross a transport (proto/error.go, proto/event.go, proto/request.go,
 proto/response.go, proto/message.go).

 encoding/json is a library: a JSON document is a structural value here, and
 an untyped Go value decoded from JSON is that value again.
 */
module Proto {
  import opened Wrappers

  const VERSION := "1"

  // ---------------------------------------------------------------- payloads

  datatype Json =
    | Null
    | Bool(b: bool)
    | Num(digits: int, scale: int) // digits times ten to the scale, as written
    | Text(s: string)
    | Arr(items: seq<Json>)
    | Obj(fields: map<string, Json>)

  /** What a Go `any` field of a message holds: nothing, a value json.Marshal
      turns into `json`, or a value it rejects. `fault` is the complaint of the
      value's own Validate method, if it has one and that fails. */
  datatype Payload =
    | Nil
    | Value(json: Json, fault: Option<string>)
    | Unencodable(fault: Option<string>)

  /** The value an `any` field holds after decoding: JSON null leaves it nil, and
      a decoded value is a plain map, slice or scalar without a Validate method. */
  function Decoded(j: Json): Payload {
    if j.Null? then Nil else Value(j, None)
  }

  function NormPayload(p: Payload): Payload {
    if p.Value? then Decoded(p.json) else Nil
  }

  predicate Encodable(p: Payload) {
    !p.Unencodable?
  }

  function PayloadFault(p: Payload): Option<string> {
    if p.Nil? then None else p.fault
  }

  // ------------------------------------------------------------------ errors

  /** Go's int on the supported platforms. */
  type ErrorCode = c: int | -0x8000_0000_0000_0000 <= c <= 0x7fff_ffff_ffff_ffff

  const UNSPECIFIED: ErrorCode := 0
  const BAD_REQUEST: ErrorCode := 400
  const INTERNAL: ErrorCode := 500
  const NOT_IMPLEMENTED: ErrorCode := 501

  datatype ResponseError = ResponseError(code: ErrorCode, message: string, data: Payload)

  /** A Go error value with the chain errors.As walks: a plain error, an error
      that wraps others (`%w`, possibly several), or a response error. */
  datatype GoError =
    | Plain(text: string)
    | Wrapping(text: string, causes: seq<GoError>)
    | Reply(re: ResponseError, cause: Option<GoError>)

  function Digits(n: nat): string {
    var d := ['0', '1', '2', '3', '4', '5', '6', '7', '8', '9'][n % 10];
    if n < 10 then [d] else Digits(n / 10) + [d]
  }

  function Decimal(n: int): string {
    if n < 0 then "-" + Digits(-n) else Digits(n)
  }

  /** The Error() text. */
  function ErrorText(e: GoError): string {
    match e
    case Plain(t) => t
    case Wrapping(t, _) => t
    case Reply(re, _) => Decimal(re.code) + ": " + re.message
  }

  function Numeral(digits: string): int {
    if digits == "" then 0 else 10 * Numeral(digits[..|digits| - 1]) + (digits[|digits| - 1] as int - '0' as int)
  }

  lemma {:induction false} DigitsRead(n: nat)
    ensures Digits(n) != "" && Numeral(Digits(n)) == n && forall c | c in Digits(n) :: '0' <= c <= '9'
  {
    if n >= 10 {
      DigitsRead(n / 10);
      assert Digits(n)[..|Digits(n)| - 1] == Digits(n / 10);
    } else {
      assert Digits(n)[..0] == "";
    }
  }

  function Magnitude(n: int): nat {
    if n < 0 then -n else n
  }

  /** The text of a response error is its code, in decimal digits, and its message. */
  lemma ReplyText(re: ResponseError, cause: Option<GoError>) returns (code: string, digits: string)
    ensures ErrorText(Reply(re, cause)) == code + ": " + re.message
    ensures code == if re.code < 0 then "-" + digits else digits
    ensures Numeral(digits) == Magnitude(re.code)
    ensures digits != "" && forall c | c in digits :: '0' <= c <= '9'
  {
    code, digits := Decimal(re.code), Digits(Magnitude(re.code));
    DigitsRead(Magnitude(re.code));
  }

  /** errors.As for *ResponseError: the first one in a pre-order walk. */
  function FirstReply(e: GoError): Option<ResponseError> {
    match e
    case Plain(_) => None
    case Wrapping(_, causes) => FirstReplyIn(causes)
    case Reply(re, _) => Some(re)
  }

  function FirstReplyIn(es: seq<GoError>): Option<ResponseError> {
    if es == [] then None
    else
      var first := FirstReply(es[0]);
      if first.Some? then first else FirstReplyIn(es[1..])
  }

  function NewError(code: ErrorCode, cause: GoError): GoError {
    Reply(ResponseError(code, ErrorText(cause), Nil), Some(cause))
  }

  function NotImplemented(msg: string): GoError {
    NewError(NOT_IMPLEMENTED, Plain(msg))
  }

  function BadRequest(cause: GoError): GoError {
    NewError(BAD_REQUEST, cause)
  }

  function ToResponseError(e: GoError): ResponseError {
    match FirstReply(e)
    case Some(re) => re
    case None => ResponseError(INTERNAL, ErrorText(e), Nil)
  }

  // ---------------------------------------------------------------- messages

  datatype Event = Event(version: string, id: string, event: string, data: Payload)

  datatype Request = Request(version: string, id: string, methodName: string, params: Payload)

  datatype Response =
    Response(version: string, response: string, result: Payload, error: Option<ResponseError>)

  datatype Message = EventMsg(evt: Event) | RequestMsg(req: Request) | ResponseMsg(resp: Response)

  /** Request.Ok and Request.NotOk. */
  function OkTo(req: Request, result: Payload): Response {
    Response(req.version, req.id, result, None)
  }

  function NotOkTo(req: Request, err: ResponseError): Response {
    Response(req.version, req.id, Nil, Some(err))
  }

  datatype Fault =
    | VersionMissing
    | VersionUnsupported
    | IdMissing
    | NameMissing
    | CodeMissing
    | TextMissing
    | PayloadInvalid(why: string)

  function BaseFault(version: string): Option<Fault> {
    if version == "" then Some(VersionMissing)
    else if version != VERSION then Some(VersionUnsupported)
    else None
  }

  function ErrorFault(e: ResponseError): Option<Fault> {
    if e.code == UNSPECIFIED then Some(CodeMissing)
    else if e.message == "" then Some(TextMissing)
    else None
  }

  function CheckPayload(p: Payload): Option<Fault> {
    match PayloadFault(p)
    case None => None
    case Some(why) => Some(PayloadInvalid(why))
  }

  /** Message.Validate: the first complaint, in the order the checks are made. */
  function Validate(m: Message): Option<Fault> {
    match m
    case EventMsg(e) =>
      if BaseFault(e.version).Some? then BaseFault(e.version)
      else if e.id == "" then Some(IdMissing)
      else if e.event == "" then Some(NameMissing)
      else CheckPayload(e.data)
    case RequestMsg(r) =>
      if BaseFault(r.version).Some? then BaseFault(r.version)
      else if r.id == "" then Some(IdMissing)
      else if r.methodName == "" then Some(NameMissing)
      else CheckPayload(r.params)
    case ResponseMsg(r) =>
      if BaseFault(r.version).Some? then BaseFault(r.version)
      else if r.response == "" then Some(IdMissing)
      else if r.error.Some? && ErrorFault(r.error.value).Some? then ErrorFault(r.error.value)
      else CheckPayload(r.result)
  }

  // --------------------------------------------------------------- encoding

  /** A field tagged `omitempty` of type `any`. */
  function OptionalField(key: string, p: Payload): map<string, Json> {
    if p.Value? then map[key := p.json] else map[]
  }

  function EncodeError(e: ResponseError): Json {
    Obj(map["code" := Num(e.code, 0), "message" := Text(e.message)] + OptionalField("any", e.data))
  }

  function ErrorField(e: Option<ResponseError>): map<string, Json> {
    match e
    case None => map[]
    case Some(re) => map["error" := EncodeError(re)]
  }

  predicate CanMarshal(m: Message) {
    match m
    case EventMsg(e) => Encodable(e.data)
    case RequestMsg(r) => Encodable(r.params)
    case ResponseMsg(r) => Encodable(r.result) && (r.error.Some? ==> Encodable(r.error.value.data))
  }

  /** json.Marshal of a message it does not reject. */
  function Marshal(m: Message): Json {
    match m
    case EventMsg(e) =>
      Obj(map["version" := Text(e.version), "id" := Text(e.id), "event" := Text(e.event)]
          + OptionalField("data", e.data))
    case RequestMsg(r) =>
      Obj(map["version" := Text(r.version), "id" := Text(r.id), "method" := Text(r.methodName)]
          + OptionalField("params", r.params))
    case ResponseMsg(r) =>
      Obj(map["version" := Text(r.version), "response" := Text(r.response)]
          + OptionalField("result", r.result) + ErrorField(r.error))
  }

  // --------------------------------------------------------------- decoding

  datatype ParseFailure = BadJson | Unclassified | Invalid(fault: Fault)

  /** Decoding into a string field: absent and null leave it empty. */
  function StringField(fields: map<string, Json>, key: string): Option<string> {
    if key !in fields || fields[key].Null? then Some("")
    else if fields[key].Text? then Some(fields[key].s)
    else None
  }

  function AnyField(fields: map<string, Json>, key: string): Payload {
    if key in fields then Decoded(fields[key]) else Nil
  }

  /** Decoding into an int field: integers in range only, not 1.0 or 1e2. */
  function CodeField(fields: map<string, Json>, key: string): Option<ErrorCode> {
    if key !in fields || fields[key].Null? then Some(0)
    else if !fields[key].Num? then None
    else
      var number := fields[key];
      if number.scale == 0 && -0x8000_0000_0000_0000 <= number.digits <= 0x7fff_ffff_ffff_ffff
      then Some(number.digits) else None
  }

  function DecodeError(j: Json): Option<ResponseError> {
    if !j.Obj? then None
    else
      match (CodeField(j.fields, "code"), StringField(j.fields, "message"))
      case (Some(code), Some(message)) => Some(ResponseError(code, message, AnyField(j.fields, "any")))
      case _ => None
  }

  /** The `error` field: null or absent leave the pointer nil; the outer None is a decoding failure. */
  function ErrorPointer(fields: map<string, Json>): Option<Option<ResponseError>> {
    if "error" !in fields || fields["error"].Null? then Some(None)
    else
      match DecodeError(fields["error"])
      case None => None
      case Some(re) => Some(Some(re))
  }

  predicate WellTyped(fields: map<string, Json>) {
    && StringField(fields, "version").Some?
    && StringField(fields, "id").Some?
    && StringField(fields, "method").Some?
    && StringField(fields, "response").Some?
    && StringField(fields, "event").Some?
    && ErrorPointer(fields).Some?
  }

  /** parseMessage: an event name wins over a method, a method over a response id. */
  function Parse(j: Json): Result<Message, ParseFailure> {
    if j.Null? then Err(Unclassified)
    else if !j.Obj? || !WellTyped(j.fields) then Err(BadJson)
    else
      var version := StringField(j.fields, "version").value;
      var id := StringField(j.fields, "id").value;
      var event := StringField(j.fields, "event").value;
      var methodName := StringField(j.fields, "method").value;
      var response := StringField(j.fields, "response").value;
      if event != "" then
        Ok(EventMsg(Event(version, id, event, AnyField(j.fields, "data"))))
      else if methodName != "" then
        Ok(RequestMsg(Request(version, id, methodName, AnyField(j.fields, "params"))))
      else if response != "" then
        Ok(ResponseMsg(Response(version, response, AnyField(j.fields, "result"), ErrorPointer(j.fields).value)))
      else
        Err(Unclassified)
  }

  function ParseValid(j: Json): Result<Message, ParseFailure> {
    match Parse(j)
    case Err(f) => Err(f)
    case Ok(m) =>
      match Validate(m)
      case Some(fault) => Err(Invalid(fault))
      case None => Ok(m)
  }

  // ------------------------------------------------------------- the codec laws

  function NormError(e: ResponseError): ResponseError {
    e.(data := NormPayload(e.data))
  }

  function NormRequest(r: Request): Request {
    r.(params := NormPayload(r.params))
  }

  function NormResponse(r: Response): Response {
    r.(result := NormPayload(r.result),
       error := match r.error case None => None case Some(e) => Some(NormError(e)))
  }

  /** What is left of a message after a JSON round trip: everything but the
      Go types of its payloads. */
  function Norm(m: Message): Message {
    match m
    case EventMsg(e) => EventMsg(e.(data := NormPayload(e.data)))
    case RequestMsg(r) => RequestMsg(NormRequest(r))
    case ResponseMsg(r) => ResponseMsg(NormResponse(r))
  }

  /** What Session.sendMessage demands before it hands bytes to the transport. */
  predicate Sendable(m: Message) {
    Validate(m).None? && CanMarshal(m)
  }

  /** What the peer's reader makes of a message written to the transport. */
  function Received(m: Message): Result<Message, ParseFailure> {
    ParseValid(Marshal(m))
  }

  /** The messages the checks let through: known version, an id, a name, sound payloads, and an
      error only with a code and a text. */
  lemma SendableIff(m: Message)
    ensures Sendable(m) <==>
            match m
            case EventMsg(Event(version, id, event, data)) =>
              version == VERSION && id != "" && event != "" && Sound(data)
            case RequestMsg(Request(version, id, methodName, params)) =>
              version == VERSION && id != "" && methodName != "" && Sound(params)
            case ResponseMsg(Response(version, response, result, error)) =>
              && version == VERSION && response != "" && Sound(result)
              && (error.Some? ==> error.value.code != 0 && error.value.message != "" && !error.value.data.Unencodable?)
  {
  }

  function VersionOf(m: Message): string {
    match m
    case EventMsg(e) => e.version
    case RequestMsg(r) => r.version
    case ResponseMsg(r) => r.version
  }

  /** The id, or that of the request answered. */
  function IdOf(m: Message): string {
    match m
    case EventMsg(e) => e.id
    case RequestMsg(r) => r.id
    case ResponseMsg(r) => r.response
  }

  /** The event or method; a response names none. */
  predicate Nameless(m: Message) {
    (m.EventMsg? && m.evt.event == "") || (m.RequestMsg? && m.req.methodName == "")
  }

  function BodyOf(m: Message): Payload {
    match m
    case EventMsg(e) => e.data
    case RequestMsg(r) => r.params
    case ResponseMsg(r) => r.result
  }

  /** Which complaint a message meets: the first of these that applies. */
  lemma FaultsIff(m: Message)
    ensures var fault := Validate(m);
            if VersionOf(m) == "" then fault == Some(VersionMissing)
            else if VersionOf(m) != "1" then fault == Some(VersionUnsupported)
            else if IdOf(m) == "" then fault == Some(IdMissing)
            else if Nameless(m) then fault == Some(NameMissing)
            else if m.ResponseMsg? && m.resp.error.Some? && m.resp.error.value.code == 0 then fault == Some(CodeMissing)
            else if m.ResponseMsg? && m.resp.error.Some? && m.resp.error.value.message == "" then
              fault == Some(TextMissing)
            else if BodyOf(m) != Nil && BodyOf(m).fault.Some? then fault == Some(PayloadInvalid(BodyOf(m).fault.value))
            else fault == None
  {
  }

  /** Absent, or encodable and without complaint. */
  predicate Sound(p: Payload) {
    p == Nil || (p.Value? && p.fault == None)
  }

  /** The field, if there and not null, is an integer in range, written as one. */
  predicate IsCode(fields: map<string, Json>, key: string) {
    key in fields && fields[key] != Null ==>
      && fields[key].Num? && fields[key].scale == 0
      && -0x8000_0000_0000_0000 <= fields[key].digits < 0x8000_0000_0000_0000
  }

  /** An error decodes exactly from an object whose code is an integer and whose message is a
      string, both optional. */
  lemma ErrorIff(j: Json)
    ensures match DecodeError(j)
            case None =>
              !j.Obj? || !IsCode(j.fields, "code")
              || ("message" in j.fields && j.fields["message"] != Null && !j.fields["message"].Text?)
            case Some(re) =>
              && j.Obj? && IsCode(j.fields, "code") && Holds(j.fields, "message", re.message)
              && re.code == (if "code" in j.fields && j.fields["code"] != Null then j.fields["code"].digits else 0)
              && re.data == AnyField(j.fields, "any")
  {
  }

  /** A string field holds something else, or the error is none. */
  predicate IllTyped(fields: map<string, Json>) {
    || (exists key <- {"version", "id", "method", "response", "event"} ::
         key in fields && fields[key] != Null && !fields[key].Text?)
    || ("error" in fields && fields["error"] != Null && DecodeError(fields["error"]).None?)
  }

  /** A document is read as a message exactly if it is an object, its string fields hold strings,
      its error is one, and it names an event, a method or a request answered, in this order of
      precedence. */
  lemma ParseIff(j: Json)
    ensures Parse(j) == Err(BadJson) <==> j != Null && (j.Obj? ==> IllTyped(j.fields))
    ensures var fields := if j.Obj? then j.fields else map[];
            match Parse(j)
            case Ok(EventMsg(e)) =>
              && Holds(fields, "event", e.event) && e.event != ""
              && Holds(fields, "id", e.id) && Holds(fields, "version", e.version)
              && e.data == AnyField(fields, "data")
            case Ok(RequestMsg(r)) =>
              && Holds(fields, "event", "") && Holds(fields, "method", r.methodName) && r.methodName != ""
              && Holds(fields, "id", r.id) && Holds(fields, "version", r.version)
              && r.params == AnyField(fields, "params")
            case Ok(ResponseMsg(r)) =>
              && Holds(fields, "event", "") && Holds(fields, "method", "")
              && Holds(fields, "response", r.response) && r.response != "" && Holds(fields, "version", r.version)
              && r.result == AnyField(fields, "result")
              && r.error ==
                 (if "error" in fields && fields["error"] != Null then DecodeError(fields["error"]) else None)
            case Err(Unclassified) =>
              Holds(fields, "event", "") && Holds(fields, "method", "") && Holds(fields, "response", "")
            case Err(BadJson) => true
            case Err(Invalid(_)) => false
  {
    if j.Obj? {
      TypesIff(j.fields);
    }
  }

  lemma TypesIff(fields: map<string, Json>)
    ensures WellTyped(fields) <==> !IllTyped(fields)
  {
    var keys := {"version", "id", "method", "response", "event"};
    assert forall key <- keys :: StringField(fields, key).None? <==>
      key in fields && fields[key] != Null && !fields[key].Text?;
    assert ErrorPointer(fields).None? <==>
      "error" in fields && fields["error"] != Null && DecodeError(fields["error"]).None?;
    if WellTyped(fields) {
      forall key | key in keys ensures StringField(fields, key).Some? {
      }
    }
  }

  /** The field is the string s; an absent or null one is the empty string. */
  predicate Holds(fields: map<string, Json>, key: string, s: string) {
    if key in fields && !fields[key].Null? then fields[key] == Text(s) else s == ""
  }

  lemma ErrorRoundTrip(e: ResponseError)
    requires Encodable(e.data)
    ensures DecodeError(EncodeError(e)) == Some(NormError(e))
  {
    var fields := EncodeError(e).fields;
    assert fields["code"] == Num(e.code, 0);
    assert fields["message"] == Text(e.message);
  }

  lemma EventRoundTrip(e: Event)
    requires Sendable(EventMsg(e))
    ensures Parse(Marshal(EventMsg(e))) == Ok(Norm(EventMsg(e)))
  {
    var fields := Marshal(EventMsg(e)).fields;
    assert fields["version"] == Text(e.version) && fields["id"] == Text(e.id) && fields["event"] == Text(e.event);
    assert "error" !in fields && "method" !in fields && "response" !in fields;
    assert AnyField(fields, "data") == NormPayload(e.data);
    assert WellTyped(fields);
  }

  lemma RequestRoundTrip(r: Request)
    requires Sendable(RequestMsg(r))
    ensures Parse(Marshal(RequestMsg(r))) == Ok(Norm(RequestMsg(r)))
  {
    var fields := Marshal(RequestMsg(r)).fields;
    assert fields["version"] == Text(r.version) && fields["id"] == Text(r.id) && fields["method"] == Text(r.methodName);
    assert "error" !in fields && "event" !in fields && "response" !in fields;
    assert AnyField(fields, "params") == NormPayload(r.params);
    assert WellTyped(fields);
  }

  lemma ResponseRoundTrip(r: Response)
    requires Sendable(ResponseMsg(r))
    ensures Parse(Marshal(ResponseMsg(r))) == Ok(Norm(ResponseMsg(r)))
  {
    var fields := Marshal(ResponseMsg(r)).fields;
    assert fields["version"] == Text(r.version) && fields["response"] == Text(r.response);
    assert "id" !in fields && "event" !in fields && "method" !in fields;
    assert AnyField(fields, "result") == NormPayload(r.result);
    assert ErrorPointer(fields) == Some(NormResponse(r).error) by {
      if r.error.Some? {
        assert fields["error"] == EncodeError(r.error.value);
        ErrorRoundTrip(r.error.value);
      } else {
        assert "error" !in fields;
      }
    }
    assert WellTyped(fields);
  }

  lemma NormIsValid(m: Message)
    requires Sendable(m)
    ensures Validate(Norm(m)).None?
  {
  }

  /** Every message the sender's checks let through is accepted by the peer, as
      the same message up to the Go types of its payloads. */
  lemma SentIsAccepted(m: Message)
    requires Sendable(m)
    ensures Received(m) == Ok(Norm(m))
  {
    NormIsValid(m);
    match m
    case EventMsg(e) => EventRoundTrip(e);
    case RequestMsg(r) => RequestRoundTrip(r);
    case ResponseMsg(r) => ResponseRoundTrip(r);
  }

  /** The same JSON value, read back; JSON null is read as absent. */
  predicate SameValue(p: Payload, read: Payload) {
    match p
    case Nil => read == Nil
    case Value(j, _) => read == if j == Null then Nil else Value(j, None)
    case Unencodable(_) => false
  }

  /** Field by field: the peer reads the message that was sent. */
  lemma ContentsArrive(m: Message)
    requires Sendable(m)
    ensures match (m, Received(m))
            case (EventMsg(e), Ok(EventMsg(got))) =>
              got.version == e.version && got.id == e.id && got.event == e.event && SameValue(e.data, got.data)
            case (RequestMsg(r), Ok(RequestMsg(got))) =>
              got.version == r.version && got.id == r.id && got.methodName == r.methodName
              && SameValue(r.params, got.params)
            case (ResponseMsg(r), Ok(ResponseMsg(got))) =>
              && got.version == r.version && got.response == r.response && SameValue(r.result, got.result)
              && (r.error.None? <==> got.error.None?)
              && (r.error.Some? ==>
                   && got.error.value.code == r.error.value.code && got.error.value.message == r.error.value.message
                   && SameValue(r.error.value.data, got.error.value.data))
            case _ => false
  {
    SentIsAccepted(m);
  }

  lemma ParsedIsNormal(j: Json)
    requires Parse(j).Ok?
    ensures CanMarshal(Parse(j).value) && Norm(Parse(j).value) == Parse(j).value
  {
  }

  /** Printing an accepted message and reading it again gives that message. */
  lemma AcceptedIsStable(j: Json)
    requires ParseValid(j).Ok?
    ensures Sendable(ParseValid(j).value)
    ensures Received(ParseValid(j).value) == ParseValid(j)
  {
    ParsedIsNormal(j);
    SentIsAccepted(ParseValid(j).value);
  }
}
