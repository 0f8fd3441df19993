/** What each chain makes of an error code, and which methods clients may call. */
module Chains {
  import opened Wrappers
  import opened Rpc

  datatype Kind = Eth | Solana | Tron | Btc

  /** How the proxy reacts to an error response. Keep hands it to the client as it is. */
  datatype Disposition = Keep | NotSupported | TryNext | Unhealthy(rateLimited: bool)

  function LowerChar(c: char): char {
    if 'A' <= c <= 'Z' then (c as int + 32) as char else c
  }

  predicate StartsWithFold(s: string, hint: string) {
    |hint| <= |s| && forall i :: 0 <= i < |hint| ==> LowerChar(s[i]) == hint[i]
  }

  predicate ContainsFold(s: string, hint: string) {
    exists i :: 0 <= i <= |s| && StartsWithFold(s[i..], hint)
  }

  const UNAVAILABLE_HINTS: seq<string> := [
    "missing trie node", "header not found", "block not found", "historical state", "state not available",
    "state is not available", "no state available", "not synced", "not in sync", "indexing"
  ]

  predicate IsDataUnavailable(message: string) {
    exists i :: 0 <= i < |UNAVAILABLE_HINTS| && ContainsFold(message, UNAVAILABLE_HINTS[i])
  }

  function HandleError(kind: Kind, code: int, message: string): Disposition {
    match kind
    case Eth =>
      if code in {-32601, -32604, -32004, -32612, -32613} then NotSupported
      else if code == -32005 then Unhealthy(true)
      else if code in {-32603, -32011} then Unhealthy(false)
      else if code in {-32001, -32002} then TryNext
      else if code == -32000 && IsDataUnavailable(message) then TryNext
      else Keep
    case Solana =>
      if code == -32601 then NotSupported
      else if code == -32005 then Unhealthy(true)
      else if code == -32603 then Unhealthy(false)
      else if code in {-32001, -32004, -32007, -32008, -32009, -32011, -32014, -32016} then TryNext
      else Keep
    case Tron =>
      if code == -32005 then Unhealthy(true)
      else if code in {-32002, -32603} then Unhealthy(false)
      else Keep
    case Btc =>
      if code == -32603 then Unhealthy(false) else Keep
  }

  /** What the chains have in common: internal errors take a provider out everywhere and rate limits
      wherever they have a code; errors outside the range that JSON-RPC 2.0 reserves (its section 5.1)
      reach the client, and only one code of one chain is judged by its text. */
  lemma CodesAcrossChains(kind: Kind, code: int, message: string, other: string)
    ensures HandleError(kind, -32603, message) == Unhealthy(false)
    ensures HandleError(kind, -32005, message) == if kind == Btc then Keep else Unhealthy(true)
    ensures code < -32768 || code > -32000 ==> HandleError(kind, code, message) == Keep
    ensures HandleError(kind, code, message) != HandleError(kind, code, other)
      <==> kind == Eth && code == -32000 && IsDataUnavailable(message) != IsDataUnavailable(other)
  {
  }

  /** Who says what with which code: the causes of each disposition over all chains. */
  lemma DispositionsExactly(kind: Kind, code: int, message: string)
    ensures HandleError(kind, code, message) == NotSupported
      <==> (code == -32601 && kind in {Eth, Solana}) || (kind == Eth && code in {-32004, -32604, -32612, -32613})
    ensures HandleError(kind, code, message) == Unhealthy(true) <==> code == -32005 && kind != Btc
    ensures HandleError(kind, code, message) == Unhealthy(false)
      <==> code == -32603 || (kind, code) in {(Eth, -32011), (Tron, -32002)}
    ensures HandleError(kind, code, message) == TryNext
      <==> || (kind == Eth && (code in {-32001, -32002} || (code == -32000 && IsDataUnavailable(message))))
           || (kind == Solana && code in {-32016, -32014, -32011, -32009, -32008, -32007, -32004, -32001})
  {
  }

  /** The text spells the hint, in whatever case. */
  predicate Spells(text: string, hint: string) {
    |text| == |hint| && forall i :: 0 <= i < |hint| ==>
      if 'A' <= text[i] <= 'Z' then hint[i] as int == text[i] as int + 32 else hint[i] == text[i]
  }

  /** The hint is spelled somewhere in the message. */
  ghost predicate HasPart(message: string, hint: string) {
    exists before, text, after :: message == before + text + after && Spells(text, hint)
  }

  lemma SpeltIsFound(before: string, text: string, after: string, hint: string)
    requires Spells(text, hint)
    ensures ContainsFold(before + text + after, hint)
  {
    var message := before + text + after;
    var rest := message[|before|..];
    assert rest == text + after;
    forall i | 0 <= i < |hint|
      ensures LowerChar(rest[i]) == hint[i]
    {
      assert rest[i] == text[i];
    }
    assert StartsWithFold(message[|before|..], hint);
  }

  lemma UnavailableExactly(message: string)
    ensures IsDataUnavailable(message) <==> exists hint :: hint in UNAVAILABLE_HINTS && HasPart(message, hint)
  {
    if k, i :| 0 <= k < |UNAVAILABLE_HINTS| && 0 <= i <= |message|
               && StartsWithFold(message[i..], UNAVAILABLE_HINTS[k])
    {
      var hint := UNAVAILABLE_HINTS[k];
      var n := i + |hint|;
      assert message == message[..i] + message[i..n] + message[n..];
      assert Spells(message[i..n], hint);
      assert hint in UNAVAILABLE_HINTS && HasPart(message, hint);
    }
    if hint :| hint in UNAVAILABLE_HINTS && HasPart(message, hint) {
      var before, text, after :| message == before + text + after && Spells(text, hint);
      SpeltIsFound(before, text, after, hint);
      var k :| 0 <= k < |UNAVAILABLE_HINTS| && UNAVAILABLE_HINTS[k] == hint;
      assert ContainsFold(message, UNAVAILABLE_HINTS[k]);
    }
  }

  /** A chain as far as error responses are concerned. */
  type ErrorHandler = Response -> Disposition

  function Judge(kind: Kind, r: Response): Disposition {
    var (code, message) := GetError(r);
    HandleError(kind, code, message)
  }

  function HandlerOf(kind: Kind): ErrorHandler { r => Judge(kind, r) }

  predicate HasCode(m: map<string, Json>, code: int) {
    "code" in m && m["code"].JNumber? && m["code"].whole == Some(code)
  }

  /** An error is judged by its code and message if it is an object that has them; one that is no object, whose code
      is missing or no 64-bit integer, or whose message is no string goes to the client, on every chain. */
  lemma JudgedByCode(kind: Kind, r: Response, m: map<string, Json>, code: int, message: string)
    requires r.error == Some(JObject(m))
    ensures HasCode(m, code) && !(-0x8000_0000_0000_0000 <= code < 0x8000_0000_0000_0000) ==> Judge(kind, r) == Keep
    ensures HasCode(m, code) && "message" in m && m["message"] == JString(message) ==>
      Judge(kind, r)
        == if -0x8000_0000_0000_0000 <= code < 0x8000_0000_0000_0000 then HandleError(kind, code, message) else Keep
    ensures (forall c :: !HasCode(m, c)) ==> Judge(kind, r) == Keep
    ensures "message" in m && m["message"] != JNull && !m["message"].JString? ==> Judge(kind, r) == Keep
    ensures forall other: Response :: other.error.None? || !other.error.value.JObject? ==> Judge(kind, other) == Keep
  {
    if "code" in m && m["code"].JNumber? && m["code"].whole.Some? {
      assert HasCode(m, m["code"].whole.value);
    }
  }

  // --------------------------------------------------------------- method allowlist

  datatype Policy = AllowAll | AllowOnly(methods: set<string>)

  predicate Allows(policy: Policy, methodName: string) {
    policy.AllowOnly? ==> methodName in policy.methods
  }

  predicate AllAllowed(policy: Policy, reqs: seq<Request>) {
    forall i :: 0 <= i < |reqs| ==> Allows(policy, reqs[i].methodName)
  }

  const CODE_RESOURCE_UNAVAILABLE: int := -32002

  function RejectionText(policy: Policy, methodName: string): string {
    if Allows(policy, methodName) then "request rejected: batch contains a method that is not allowed"
    else "method not allowed: " + methodName
  }

  function Rejection(policy: Policy, req: Request): Response {
    Response("2.0", req.id, None, "", None,
             Some(NewError(CODE_RESOURCE_UNAVAILABLE, RejectionText(policy, req.methodName))))
  }

  /** The verdict on a whole request: nothing, or one error for every member in order. */
  function Rejections(policy: Policy, reqs: seq<Request>): Option<seq<Response>> {
    if AllAllowed(policy, reqs) then None
    else Some(seq(|reqs|, i requires 0 <= i < |reqs| => Rejection(policy, reqs[i])))
  }

  lemma RejectionSays(policy: Policy, req: Request)
    ensures var r := Rejection(policy, req);
      r.id == req.id && IsError(r) && GetError(r) == (-32002, RejectionText(policy, req.methodName))
  {
    ErrorComesBack(Rejection(policy, req), -32002, RejectionText(policy, req.methodName));
  }

  /** The response refuses the request, by its id. */
  predicate Refuses(policy: Policy, req: Request, r: Response) {
    && r.id == req.id && IsError(r) && GetError(r).0 == -32002
    && (policy.AllowOnly? && req.methodName !in policy.methods ==>
          GetError(r).1 == "method not allowed: " + req.methodName)
    && (policy.AllowAll? || req.methodName in policy.methods ==>
          GetError(r).1 == "request rejected: batch contains a method that is not allowed")
  }

  /** Nothing is rejected exactly when every method is allowed; otherwise every member is refused, in order. */
  lemma RejectionsExactly(policy: Policy, reqs: seq<Request>)
    ensures var rejected := Rejections(policy, reqs);
      && (rejected.None? <==>
            policy.AllowAll? || forall i :: 0 <= i < |reqs| ==> reqs[i].methodName in policy.methods)
      && (rejected.Some? ==>
            && |rejected.value| == |reqs|
            && forall i :: 0 <= i < |reqs| ==> Refuses(policy, reqs[i], rejected.value[i]))
  {
    forall i | 0 <= i < |reqs|
      ensures Refuses(policy, reqs[i], Rejection(policy, reqs[i]))
    {
      RejectionSays(policy, reqs[i]);
    }
  }

  lemma RejectionsAre(policy: Policy, reqs: seq<Request>, responses: seq<Response>)
    requires |responses| == |reqs| && !AllAllowed(policy, reqs)
    requires forall i :: 0 <= i < |reqs| ==> responses[i] == Rejection(policy, reqs[i])
    ensures Rejections(policy, reqs) == Some(responses)
    ensures forall i :: 0 <= i < |reqs| ==> responses[i].id == reqs[i].id && IsError(responses[i])
  {
    assert responses == Rejections(policy, reqs).value;
  }

  method RejectDisallowed(policy: Policy, reqs: seq<Request>) returns (rejected: Option<seq<Response>>)
    ensures rejected == Rejections(policy, reqs)
    ensures rejected.None? <==> AllAllowed(policy, reqs)
    ensures rejected.Some? ==> |rejected.value| == |reqs|
    ensures rejected.Some? ==>
      forall i :: 0 <= i < |reqs| ==> rejected.value[i].id == reqs[i].id && IsError(rejected.value[i])
  {
    var allowed := true;
    var i := 0;
    while i < |reqs|
      invariant 0 <= i <= |reqs|
      invariant allowed
      invariant forall j :: 0 <= j < i ==> Allows(policy, reqs[j].methodName)
    {
      if !Allows(policy, reqs[i].methodName) {
        allowed := false;
        break;
      }
      i := i + 1;
    }
    if allowed {
      return None;
    }
    assert !Allows(policy, reqs[i].methodName);
    var responses: seq<Response> := [];
    i := 0;
    while i < |reqs|
      invariant 0 <= i <= |reqs|
      invariant |responses| == i && forall j :: 0 <= j < i ==> responses[j] == Rejection(policy, reqs[j])
    {
      var text := "method not allowed: " + reqs[i].methodName;
      if Allows(policy, reqs[i].methodName) {
        text := "request rejected: batch contains a method that is not allowed";
      }
      responses := responses +
        [Response("2.0", reqs[i].id, None, "", None, Some(NewError(CODE_RESOURCE_UNAVAILABLE, text)))];
      i := i + 1;
    }
    RejectionsAre(policy, reqs, responses);
    return Some(responses);
  }
}
