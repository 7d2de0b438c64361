/** The two transports to the ERP server. Neither XML-RPC nor HTTP is modelled:
    a `Transport` records every request the client puts on the wire, in order,
    and the server is an oracle that answers the newest request given the whole
    history so far. Any reply, failure or exception is therefore possible.
    What is modelled is the client-side XML-RPC marshaller of a `ServerProxy`
    built without `allow_none`: it refuses `None` and ints outside 32 bits, and
    then raises before anything is sent. */
module Wire {
  import opened PyValue

  /** One request the client sends. */
  datatype Request =
      /** `ServerProxy(endpoint).authenticate(db, login, password, {})` */
    | AuthenticateCall(endpoint: string, db: string, login: string, password: string)
      /** `ServerProxy(endpoint).execute_kw(db, uid, password, model, methodName, args)` */
    | ExecuteKwCall(endpoint: string, db: string, uid: Value, password: string,
                    model: string, methodName: string, args: seq<Value>)
      /** An HTTP POST of a JSON-RPC 2.0 `call` envelope to `endpoint`, with
          `params = {service, method, args}` and an optional `session_id` cookie. */
    | JsonRpcPost(endpoint: string, service: string, methodName: string, args: seq<Value>,
                  sessionCookie: Option<string>)

  /** What an XML-RPC call yields: a value, or an exception (fault or network error). */
  datatype XmlReply = XmlReturned(value: Value) | XmlRaised(error: string)

  /** What `requests.post` yields. `body` is `None` when `response.json()`
      raises or the decoded JSON is not an object; `sessionCookie` is
      `response.cookies.get('session_id')`. */
  datatype HttpReply =
    | HttpResponse(status: int, body: Option<map<string, Value>>, sessionCookie: Option<string>)
    | HttpRaised(error: string)

  /** The remote side: each oracle is applied to the request history whose
      last element is the request being answered. */
  datatype Oracles = Oracles(answerXml: seq<Request> -> XmlReply, answerJson: seq<Request> -> HttpReply)

  // ---------------------------------------------------------------------
  // XML-RPC marshalling

  const NoneMarshalMessage: string := "cannot marshal None unless allow_none is enabled"
  const IntMarshalMessage: string := "int exceeds XML-RPC limits"
  const MinXmlRpcInt: int := -0x8000_0000
  const MaxXmlRpcInt: int := 0x7fff_ffff

  /** The values XML-RPC can encode: no `None` anywhere (`<nil/>` is an
      extension a proxy only emits with `allow_none`), and every int within
      the signed 32-bit range of `<int>`. */
  predicate Marshallable(v: Value)
  {
    match v
    case Nil => false
    case Int(i) => MinXmlRpcInt <= i <= MaxXmlRpcInt
    case List(items) => forall i | 0 <= i < |items| :: Marshallable(items[i])
    case Dict(fields) => forall k | k in fields :: Marshallable(fields[k])
    case _ => true
  }

  /** The first error of a sequence of checks, in order. */
  function FirstError(es: seq<Option<string>>): (r: Option<string>)
    ensures r.None? <==> forall i | 0 <= i < |es| :: es[i].None?
    ensures r.Some? ==> exists i | 0 <= i < |es| :: es[i] == r && forall j | 0 <= j < i :: es[j].None?
  {
    if es == [] then None
    else if es[0].Some? then es[0]
    else
      var r := FirstError(es[1..]);
      assert forall i | 1 <= i < |es| :: es[i] == es[1..][i - 1];
      r
  }

  /** The text of the exception the marshaller raises on `v`, if any. List
      elements are encoded in order, so the first failing one decides; the
      order of a dict's entries is not modelled, and a dict holding a `None`
      reports the `None`. */
  function MarshalError(v: Value): (e: Option<string>)
    ensures e.None? <==> Marshallable(v)
    ensures e.Some? ==> e.value == NoneMarshalMessage || e.value == IntMarshalMessage
    ensures v == Nil ==> e == Some(NoneMarshalMessage)
  {
    match v
    case Nil => Some(NoneMarshalMessage)
    case Int(i) => if MinXmlRpcInt <= i <= MaxXmlRpcInt then None else Some(IntMarshalMessage)
    case List(items) =>
      var es := seq(|items|, i requires 0 <= i < |items| => MarshalError(items[i]));
      assert forall i | 0 <= i < |items| :: es[i].None? <==> Marshallable(items[i]);
      FirstError(es)
    case Dict(fields) =>
      if exists k | k in fields :: MarshalError(fields[k]) == Some(NoneMarshalMessage) then Some(NoneMarshalMessage)
      else if exists k | k in fields :: MarshalError(fields[k]).Some? then Some(IntMarshalMessage)
      else None
    case _ => None
  }

  /** The marshalling error of an XML-RPC call, its parameters taken in
      order. An `authenticate` call carries only strings and `{}`; an
      `execute_kw` call carries the uid and the argument list besides
      strings. A JSON-RPC post never goes through this marshaller. */
  function RequestMarshalError(r: Request): (e: Option<string>)
    ensures r.AuthenticateCall? || r.JsonRpcPost? ==> e.None?
    ensures r.ExecuteKwCall? ==> (e.None? <==> Marshallable(r.uid) && forall i | 0 <= i < |r.args| :: Marshallable(r.args[i]))
  {
    match r
    case ExecuteKwCall(_, _, uid, _, _, _, args) =>
      var es := [MarshalError(uid), MarshalError(List(args))];
      assert es[0].None? <==> Marshallable(uid);
      assert es[1].None? <==> Marshallable(List(args));
      FirstError(es)
    case _ => None
  }

  /** One XML-RPC call after the history `sent`: the new history and the
      reply. A call the marshaller refuses raises without being sent. */
  function XmlExchange(o: Oracles, sent: seq<Request>, r: Request): (x: (seq<Request>, XmlReply))
    ensures RequestMarshalError(r).Some? ==> x == (sent, XmlRaised(RequestMarshalError(r).value))
    ensures RequestMarshalError(r).None? ==> x == (sent + [r], o.answerXml(sent + [r]))
  {
    match RequestMarshalError(r)
    case Some(e) => (sent, XmlRaised(e))
    case None => (sent + [r], o.answerXml(sent + [r]))
  }

  class Transport {
    const oracles: Oracles
    var sent: seq<Request>

    constructor (oracles: Oracles)
      ensures this.oracles == oracles && sent == []
    {
      this.oracles := oracles;
      sent := [];
    }

    /** An XML-RPC call: unless the marshaller refuses it, the request goes
        out and the server's answer comes back. */
    method SendXml(r: Request) returns (reply: XmlReply)
      modifies this
      ensures (sent, reply) == XmlExchange(oracles, old(sent), r)
    {
      var error := RequestMarshalError(r);
      if error.Some? {
        reply := XmlRaised(error.value);
      } else {
        sent := sent + [r];
        reply := oracles.answerXml(sent);
      }
    }

    /** An HTTP POST to the JSON-RPC endpoint. */
    method SendJson(r: Request) returns (reply: HttpReply)
      modifies this
      ensures sent == old(sent) + [r]
      ensures reply == oracles.answerJson(sent)
    {
      sent := sent + [r];
      reply := oracles.answerJson(sent);
    }
  }
}
