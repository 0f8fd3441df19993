/** JSON-RPC messages as trees: ids and their keys, requests, responses and batches. */
module Rpc {
  import opened Wrappers

  /** A JSON value. A number keeps its text and, when it is an integer, the value read from it. */
  datatype Json =
    | JNull
    | JBool(b: bool)
    | JNumber(text: string, whole: Option<int>)
    | JString(s: string)
    | JArray(items: seq<Json>)
    | JObject(fields: map<string, Json>)

  datatype Id = Absent | Null | Number(text: string, whole: Option<int>) | Text(value: string)

  /** The key under which requests and responses are matched. */
  function Key(id: Id): string {
    match id
    case Absent => ""
    case Null => "null"
    case Number(text, _) => text
    case Text(value) => value
  }

  /** A JSON number starts with a sign or a digit. */
  predicate IsNumberText(text: string) { text != "" && (text[0] == '-' || '0' <= text[0] <= '9') }

  /** The ids that decoding lets through, or leaves out. */
  predicate IsReceivable(id: Id) { id.Number? ==> IsNumberText(id.text) }

  /** The same JSON kind with the same text. */
  predicate SameId(a: Id, b: Id) {
    match a
    case Absent => b.Absent?
    case Null => b.Null?
    case Number(text, _) => b.Number? && b.text == text
    case Text(value) => b.Text? && b.value == value
  }

  /** The key forgets the JSON kind of a string and of nothing else: besides equal ids, only a string
      shares a key, with the one number, null or absence that it spells. */
  lemma KeysCoincideExactly(a: Id, b: Id)
    requires IsReceivable(a) && IsReceivable(b)
    ensures Key(a) == Key(b)
      <==> SameId(a, b) || (a.Text? && !b.Text? && a.value == Key(b)) || (b.Text? && !a.Text? && b.value == Key(a))
    ensures a.Text? == b.Text? ==> (Key(a) == Key(b) <==> SameId(a, b))
  {
  }

  /** Every other id has a string that shares its key. */
  lemma KeyIsNotInjective(id: Id)
    requires !id.Text?
    ensures !SameId(id, Text(Key(id))) && Key(id) == Key(Text(Key(id)))
  {
  }

  datatype Request = Request(id: Id, methodName: string, params: string)

  function ReqKey(r: Request): string { Key(r.id) }

  /** In the raw fields None is a field of length zero and Some(JNull) a literal null. */
  datatype Response = Response(
    version: string, id: Id, result: Option<Json>, methodName: string, params: Option<Json>, error: Option<Json>)

  function ResKey(r: Response): string { Key(r.id) }

  predicate IsError(r: Response) { r.error.Some? && r.error.value != JNull }

  const MIN_INT: int := -0x8000_0000_0000_0000
  const MAX_INT: int := 0x7FFF_FFFF_FFFF_FFFF

  predicate ReadsAsInt(j: Json) {
    j == JNull || (j.JNumber? && j.whole.Some? && MIN_INT <= j.whole.value <= MAX_INT)
  }

  predicate ReadsAsString(j: Json) { j == JNull || j.JString? }

  function AsInt(j: Json): int requires ReadsAsInt(j) { if j.JNumber? then j.whole.value else 0 }

  function AsString(j: Json): string requires ReadsAsString(j) { if j.JString? then j.s else "" }

  function Field(m: map<string, Json>, name: string): Json { if name in m then m[name] else JNull }

  function RawField(m: map<string, Json>, name: string): Option<Json> {
    if name in m then Some(m[name]) else None
  }

  /** The code and message of an error; a shape the decoder refuses has code 0. The text
      "rpc <code>: " put before the message holds no availability hint and starts none, so
      it is left off. */
  function GetError(r: Response): (int, string) {
    match r.error
    case Some(JObject(m)) =>
      if ReadsAsInt(Field(m, "code")) && ReadsAsString(Field(m, "message"))
      then (AsInt(Field(m, "code")), AsString(Field(m, "message")))
      else (0, "")
    case _ => (0, "")
  }

  function NewError(code: int, message: string): Json {
    JObject(map["code" := JNumber("", Some(code)), "message" := JString(message)])
  }

  /** An error made here reads as what it was made from. */
  lemma ErrorComesBack(r: Response, code: int, message: string)
    requires r.error == Some(NewError(code, message)) && MIN_INT <= code <= MAX_INT
    ensures IsError(r) && GetError(r) == (code, message)
  {
  }

  // ------------------------------------------------------------ re-serialisation

  predicate ReadsAsId(j: Json) { j == JNull || j.JNumber? || j.JString? }

  function IdOf(m: map<string, Json>): Id
    requires "id" in m ==> ReadsAsId(m["id"])
  {
    if "id" !in m then Absent else
      match m["id"]
      case JNumber(text, n) => Number(text, n)
      case JString(s) => Text(s)
      case _ => Null
  }

  function IdField(id: Id): map<string, Json> {
    match id
    case Absent => map[]
    case Null => map["id" := JNull]
    case Number(text, n) => map["id" := JNumber(text, n)]
    case Text(value) => map["id" := JString(value)]
  }

  function Optional(name: string, value: Option<Json>): map<string, Json> {
    match value
    case None => map[]
    case Some(j) => map[name := j]
  }

  /** Decoding one response object; a bare null leaves every field unset. */
  function Decode(j: Json): Option<Response> {
    match j
    case JNull => Some(Response("", Absent, None, "", None, None))
    case JObject(m) =>
      if ReadsAsString(Field(m, "jsonrpc")) && ReadsAsString(Field(m, "method")) && ("id" in m ==> ReadsAsId(m["id"]))
      then Some(Response(AsString(Field(m, "jsonrpc")), IdOf(m), RawField(m, "result"),
                         AsString(Field(m, "method")), RawField(m, "params"), RawField(m, "error")))
      else None
    case _ => None
  }

  /** Decoding refuses exactly what is neither an object nor null, and objects with a version or a method that is
      no string, or an id that is no string and no number; null passes for anything, and an id of null is kept
      apart from none. */
  lemma DecodesExactly(j: Json)
    ensures Decode(j) == None <==> match j
      case JNull => false
      case JObject(m) =>
        || ("jsonrpc" in m && !m["jsonrpc"].JString? && !m["jsonrpc"].JNull?)
        || ("method" in m && !m["method"].JString? && !m["method"].JNull?)
        || ("id" in m && !m["id"].JString? && !m["id"].JNumber? && !m["id"].JNull?)
      case _ => true
    ensures j.JObject? && Decode(j).Some? ==>
      && (Decode(j).value.id == Absent <==> "id" !in j.fields)
      && (Decode(j).value.id == Null <==> "id" in j.fields && j.fields["id"] == JNull)
      && (Decode(j).value.error == None <==> "error" !in j.fields)
  {
  }

  /** Serialising: a notification, an error or a success, in that order of preference. */
  function Encode(r: Response): Json {
    var version := map["jsonrpc" := JString(r.version)];
    if r.methodName != "" then
      JObject(version + map["method" := JString(r.methodName)] + Optional("params", r.params))
    else if r.error.Some? then
      JObject(version + IdField(r.id) + map["error" := r.error.value])
    else
      JObject(version + IdField(r.id) + map["result" := if r.result.Some? then r.result.value else JNull])
  }

  /** Whatever was received, what is sent on decodes, and serialises to itself again. */
  lemma EncodeIsStable(r: Response)
    ensures Decode(Encode(r)).Some?
    ensures Encode(Decode(Encode(r)).value) == Encode(r)
  {
    var back := Decode(Encode(r)).value;
    assert back.version == r.version;
    if r.methodName != "" {
      assert back.methodName == r.methodName && back.params == r.params;
    } else {
      assert back.id == r.id && back.methodName == "";
    }
  }

  /** What the next receiver makes of a response that is sent on. */
  function SentOn(r: Response): Response
  {
    EncodeIsStable(r);
    Decode(Encode(r)).value
  }

  /** A result that is not there reads as null. */
  function ResultRead(r: Response): Json { if r.result.Some? then r.result.value else JNull }

  lemma SentOnIs(r: Response)
    ensures SentOn(r)
      == if r.methodName != "" then Response(r.version, Absent, None, r.methodName, r.params, None)
         else if r.error.Some? then Response(r.version, r.id, None, "", None, r.error)
         else Response(r.version, r.id, Some(ResultRead(r)), "", None, None)
  {
    if r.methodName != "" {
      NotificationSentOn(r);
    } else if r.error.Some? {
      ErrorSentOn(r);
    } else {
      ResultSentOn(r);
    }
  }

  lemma NotificationSentOn(r: Response)
    requires r.methodName != ""
    ensures SentOn(r) == Response(r.version, Absent, None, r.methodName, r.params, None)
  {
  }

  lemma ErrorSentOn(r: Response)
    requires r.methodName == "" && r.error.Some?
    ensures SentOn(r) == Response(r.version, r.id, None, "", None, r.error)
  {
  }

  lemma ResultSentOn(r: Response)
    requires r.methodName == "" && r.error.None?
    ensures SentOn(r) == Response(r.version, r.id, Some(ResultRead(r)), "", None, None)
  {
  }

  /** Field by field, what survives: a method drives out everything but params, an error drives out
      the result, and an absent result comes back as null. */
  lemma FieldsSurvive(r: Response)
    ensures SentOn(r).version == r.version && SentOn(r).methodName == r.methodName
    ensures SentOn(r).id == r.id <==> r.methodName == "" || r.id == Absent
    ensures SentOn(r).params == r.params <==> r.methodName != "" || r.params == None
    ensures SentOn(r).error == r.error <==> r.methodName == "" || r.error == None
    ensures SentOn(r).result == r.result
      <==> if r.methodName == "" && r.error == None then r.result.Some? else r.result == None
  {
    SentOnIs(r);
  }

  /** The readings the proxy and its clients act on: whether it is an error, which one, what the result
      is, and whose answer it is. */
  lemma ReadingsSurvive(r: Response)
    ensures IsError(SentOn(r)) == IsError(r) <==> r.methodName == "" || !IsError(r)
    ensures IsError(SentOn(r)) ==> GetError(SentOn(r)) == GetError(r)
    ensures ResultRead(SentOn(r)) == ResultRead(r)
      <==> ResultRead(r) == JNull || (r.methodName == "" && r.error == None)
    ensures ResKey(SentOn(r)) == ResKey(r) <==> r.methodName == "" || ResKey(r) == ""
  {
    SentOnIs(r);
  }

  predicate IsNotification(r: Response) {
    r.methodName != "" && r.id == Absent && r.result == None && r.error == None
  }

  predicate IsFailure(r: Response) {
    r.error.Some? && r.result == None && r.methodName == "" && r.params == None
  }

  predicate IsSuccess(r: Response) {
    r.result.Some? && r.error == None && r.methodName == "" && r.params == None
  }

  /** Sending on changes nothing exactly for the three shapes a server may send: a notification, an
      error or a result (sections 4.1 and 5 of the JSON-RPC 2.0 Specification), each on its own. */
  lemma UnchangedExactly(r: Response)
    ensures SentOn(r) == r <==> IsNotification(r) || IsFailure(r) || IsSuccess(r)
  {
    FieldsSurvive(r);
  }

  // The shapes that lose something, each as it may be received.

  /** A response with id "a" and the fields that are given. */
  function Received(methodName: string, params: Option<Json>, result: Option<Json>,
                    error: Option<Json>): Option<Response> {
    Decode(JObject(map["jsonrpc" := JString("2.0"), "id" := JString("a"), "method" := JString(methodName)]
                   + Optional("params", params) + Optional("result", result) + Optional("error", error)))
  }

  lemma ReceivedIs(methodName: string, params: Option<Json>, result: Option<Json>, error: Option<Json>, r: Response)
    requires r == Response("2.0", Text("a"), result, methodName, params, error)
    ensures Received(methodName, params, result, error) == Some(r)
  {
  }

  lemma NullErrorLosesResult()
    ensures var r := Response("2.0", Text("a"), Some(JBool(true)), "", None, Some(JNull));
      && Received("", None, Some(JBool(true)), Some(JNull)) == Some(r)
      && !IsError(r) && ResultRead(r) == JBool(true) && ResultRead(SentOn(r)) == JNull
  {
    var r := Response("2.0", Text("a"), Some(JBool(true)), "", None, Some(JNull));
    ReceivedIs("", None, Some(JBool(true)), Some(JNull), r);
    ReadingsSurvive(r);
  }

  lemma ErrorLosesResult()
    ensures var r := Response("2.0", Text("a"), Some(JBool(true)), "", None, Some(JString("failed")));
      && Received("", None, Some(JBool(true)), Some(JString("failed"))) == Some(r)
      && IsError(r) && ResultRead(r) == JBool(true) && ResultRead(SentOn(r)) == JNull
  {
    var r := Response("2.0", Text("a"), Some(JBool(true)), "", None, Some(JString("failed")));
    ReceivedIs("", None, Some(JBool(true)), Some(JString("failed")), r);
    ReadingsSurvive(r);
  }

  lemma MethodLosesIdAndResult()
    ensures var r := Response("2.0", Text("a"), Some(JBool(true)), "x", None, None);
      && Received("x", None, Some(JBool(true)), None) == Some(r)
      && ResKey(r) == "a" && SentOn(r).id == Absent && ResultRead(r) == JBool(true) && ResultRead(SentOn(r)) == JNull
  {
    var r := Response("2.0", Text("a"), Some(JBool(true)), "x", None, None);
    ReceivedIs("x", None, Some(JBool(true)), None, r);
    ReadingsSurvive(r);
    FieldsSurvive(r);
  }

  lemma MethodHidesError()
    ensures var r := Response("2.0", Text("a"), None, "x", None, Some(NewError(-32603, "")));
      && Received("x", None, None, Some(NewError(-32603, ""))) == Some(r)
      && IsError(r) && !IsError(SentOn(r))
  {
    var r := Response("2.0", Text("a"), None, "x", None, Some(NewError(-32603, "")));
    ReceivedIs("x", None, None, Some(NewError(-32603, "")), r);
    ReadingsSurvive(r);
  }

  lemma ParamsNeedMethod()
    ensures var r := Response("2.0", Text("a"), Some(JNull), "", Some(JBool(true)), None);
      && Received("", Some(JBool(true)), Some(JNull), None) == Some(r)
      && SentOn(r).params == None
  {
    var r := Response("2.0", Text("a"), Some(JNull), "", Some(JBool(true)), None);
    ReceivedIs("", Some(JBool(true)), Some(JNull), None, r);
    FieldsSurvive(r);
  }

  // ---------------------------------------------------------------------- batches

  datatype BatchRequest = BatchRequest(requests: seq<Request>, isBatch: bool)
  datatype BatchResponse = BatchResponse(responses: seq<Response>, isBatch: bool)

  function DecodeAll(items: seq<Json>): Option<seq<Response>> {
    if items == [] then Some([]) else
      var first, rest := Decode(items[0]), DecodeAll(items[1..]);
      if first.Some? && rest.Some? then Some([first.value] + rest.value) else None
  }

  function EncodeAll(rs: seq<Response>): seq<Json> {
    if rs == [] then [] else [Encode(rs[0])] + EncodeAll(rs[1..])
  }

  function DecodeBatch(j: Json): Option<BatchResponse> {
    match j
    case JArray(items) =>
      var rs := DecodeAll(items);
      if rs.Some? then Some(BatchResponse(rs.value, true)) else None
    case JObject(_) =>
      var r := Decode(j);
      if r.Some? then Some(BatchResponse([r.value], false)) else None
    case _ => None
  }

  function EncodeBatch(b: BatchResponse): Option<Json> {
    if b.responses == [] then None
    else if !b.isBatch then Some(Encode(b.responses[0]))
    else Some(JArray(EncodeAll(b.responses)))
  }

  lemma {:induction false} EncodeAllIsStable(rs: seq<Response>)
    ensures var back := DecodeAll(EncodeAll(rs));
      && back.Some? && |back.value| == |rs| && EncodeAll(back.value) == EncodeAll(rs)
      && forall i :: 0 <= i < |rs| ==> back.value[i] == SentOn(rs[i])
  {
    if rs != [] {
      EncodeIsStable(rs[0]);
      EncodeAllIsStable(rs[1..]);
      var back := DecodeAll(EncodeAll(rs)).value;
      assert EncodeAll(rs)[0] == Encode(rs[0]) && EncodeAll(rs)[1..] == EncodeAll(rs[1..]);
      assert back[1..] == DecodeAll(EncodeAll(rs[1..])).value;
    }
  }

  /** A batch that was sent on decodes to the same shape, member by member to what is sent on of
      each, and serialises to itself again. An empty one cannot be sent. */
  lemma EncodeBatchIsStable(b: BatchResponse)
    ensures EncodeBatch(b).None? <==> b.responses == []
    ensures b.responses != [] ==>
      var back := DecodeBatch(EncodeBatch(b).value);
      && back.Some? && back.value.isBatch == b.isBatch
      && |back.value.responses| == (if b.isBatch then |b.responses| else 1)
      && (forall i :: 0 <= i < |back.value.responses| ==> back.value.responses[i] == SentOn(b.responses[i]))
      && EncodeBatch(back.value) == EncodeBatch(b)
  {
    if b.responses != [] {
      EncodeIsStable(b.responses[0]);
      EncodeAllIsStable(b.responses);
    }
  }
}
