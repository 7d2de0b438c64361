/** The `OdooAPI` client of odoo_api_demo.py as pure functions over its state.

    A `Session` holds the client's fields; a `World` pairs it with the list of
    requests sent so far. Each operation maps a world (and the server oracles)
    to the next world and the operation's return value. The class in module
    `OdooClient` is proved to behave exactly like these functions, and module
    `OdooProps` proves what the client promises about them.

    The source duplicates every operation as `..._xmlrpc` and `..._jsonrpc`;
    the two bodies differ only in which execute they call, so each pair is one
    function here with a `Protocol` argument. */
module OdooSpec {
  import opened PyValue
  import opened Wire

  datatype Protocol = XmlRpc | JsonRpc

  /** The fields of an `OdooAPI` object. `xmlCommon` and `xmlModels` are the
      XML-RPC proxies, given by the endpoint they were built for. */
  datatype Session = Session(
    url: string, db: string, username: string, password: string,
    uid: Value,
    xmlCommon: Option<string>, xmlModels: Option<string>,
    jsonrpcUrl: string,
    sessionId: Option<string>)

  datatype World = World(session: Session, sent: seq<Request>)

  const LeadModel: string := "crm.lead"

  // ---------------------------------------------------------------------
  // Construction and endpoints

  predicate NoTrailingSlash(s: string)
  {
    s == "" || s[|s| - 1] != '/'
  }

  /** `s.rstrip('/')`: `s` with every trailing slash removed. */
  function RStripSlashes(s: string): (r: string)
    ensures r <= s && NoTrailingSlash(r)
    ensures forall i | |r| <= i < |s| :: s[i] == '/'
  {
    if s != [] && s[|s| - 1] == '/' then RStripSlashes(s[..|s| - 1]) else s
  }

  function CommonEndpoint(url: string): string { url + "/xmlrpc/2/common" }

  function ObjectEndpoint(url: string): string { url + "/xmlrpc/2/object" }

  /** The object invariant of `OdooAPI`: the base URL carries no trailing
      slash, the JSON-RPC URL and any proxy are built from it, and the models
      proxy exists only once the common proxy does. */
  predicate Valid(s: Session)
  {
    && NoTrailingSlash(s.url)
    && s.jsonrpcUrl == s.url + "/jsonrpc"
    && (s.xmlCommon.Some? ==> s.xmlCommon.value == CommonEndpoint(s.url))
    && (s.xmlModels.Some? ==> s.xmlModels.value == ObjectEndpoint(s.url) && s.xmlCommon.Some?)
  }

  /** The connection parameters, which no operation changes. */
  predicate SameConfig(s: Session, t: Session)
  {
    s.url == t.url && s.db == t.db && s.username == t.username
    && s.password == t.password && s.jsonrpcUrl == t.jsonrpcUrl
  }

  /** `OdooAPI.__init__`. */
  function NewSession(url: string, db: string, username: string, password: string): (s: Session)
    ensures Valid(s)
    ensures s.url <= url && forall i | |s.url| <= i < |url| :: url[i] == '/'
    ensures s.jsonrpcUrl == s.url + "/jsonrpc"
    ensures s.db == db && s.username == username && s.password == password
    ensures s.uid == Nil && s.xmlCommon == None && s.xmlModels == None && s.sessionId == None
  {
    var base := RStripSlashes(url);
    Session(base, db, username, password, Nil, None, None, base + "/jsonrpc", None)
  }

  // ---------------------------------------------------------------------
  // Authentication

  function XmlAuthRequest(s: Session): Request
  {
    AuthenticateCall(CommonEndpoint(s.url), s.db, s.username, s.password)
  }

  function JsonAuthRequest(s: Session): Request
  {
    JsonRpcPost(s.jsonrpcUrl, "common", "login", [Str(s.db), Str(s.username), Str(s.password)], None)
  }

  /** `xmlrpc_authenticate`: builds the common proxy, asks the server, and
      stores whatever it returns as `uid`; the models proxy is built only on
      a truthy uid. An exception leaves `uid` as it was. */
  function XmlAuthenticate(w: World, o: Oracles): (r: (World, bool))
    ensures r.1 ==> Truthy(r.0.session.uid) && r.0.session.xmlModels.Some?
  {
    var s := w.session.(xmlCommon := Some(CommonEndpoint(w.session.url)));
    var sent := w.sent + [XmlAuthRequest(w.session)];
    match o.answerXml(sent)
    case XmlRaised(_) => (World(s, sent), false)
    case XmlReturned(v) =>
      if Truthy(v) then (World(s.(uid := v, xmlModels := Some(ObjectEndpoint(s.url))), sent), true)
      else (World(s.(uid := v), sent), false)
  }

  /** `jsonrpc_authenticate`: posts a `common.login` call; only a 200 reply
      whose body has a truthy `result` changes `uid` and `session_id`. */
  function JsonAuthenticate(w: World, o: Oracles): (r: (World, bool))
    ensures r.1 ==> Truthy(r.0.session.uid)
  {
    var sent := w.sent + [JsonAuthRequest(w.session)];
    match o.answerJson(sent)
    case HttpRaised(_) => (World(w.session, sent), false)
    case HttpResponse(status, body, cookie) =>
      if status == 200 && body.Some? && "result" in body.value && Truthy(body.value["result"]) then
        (World(w.session.(uid := body.value["result"], sessionId := cookie), sent), true)
      else (World(w.session, sent), false)
  }

  function Authenticate(w: World, o: Oracles, p: Protocol): (World, bool)
  {
    match p
    case XmlRpc => XmlAuthenticate(w, o)
    case JsonRpc => JsonAuthenticate(w, o)
  }

  function AuthRequest(s: Session, p: Protocol): Request
  {
    match p
    case XmlRpc => XmlAuthRequest(s)
    case JsonRpc => JsonAuthRequest(s)
  }

  // ---------------------------------------------------------------------
  // Execute

  /** When execute authenticates first: XML-RPC needs a truthy uid and the
      models proxy, JSON-RPC only a truthy uid. */
  predicate NeedsAuth(s: Session, p: Protocol)
  {
    match p
    case XmlRpc => !Truthy(s.uid) || s.xmlModels.None?
    case JsonRpc => !Truthy(s.uid)
  }

  /** The cookies sent with a JSON-RPC call: `session_id` only when it is truthy. */
  function SessionCookie(sessionId: Option<string>): (c: Option<string>)
    ensures c.Some? <==> sessionId.Some? && sessionId.value != ""
    ensures c.Some? ==> c == sessionId
  {
    if sessionId.Some? && sessionId.value != "" then sessionId else None
  }

  /** The `execute_kw` request an authenticated client sends. */
  function CallRequest(s: Session, p: Protocol, model: string, methodName: string, args: seq<Value>): Request
    requires !NeedsAuth(s, p)
  {
    match p
    case XmlRpc => ExecuteKwCall(s.xmlModels.value, s.db, s.uid, s.password, model, methodName, args)
    case JsonRpc =>
      JsonRpcPost(s.jsonrpcUrl, "object", "execute_kw",
                  [Str(s.db), s.uid, Str(s.password), Str(model), Str(methodName), List(args)],
                  SessionCookie(s.sessionId))
  }

  /** An XML-RPC call yields its value; any exception becomes `None`. */
  function XmlResult(reply: XmlReply): (r: Value)
    ensures reply.XmlRaised? ==> r == Nil
    ensures reply.XmlReturned? ==> r == reply.value
  {
    match reply
    case XmlReturned(v) => v
    case XmlRaised(_) => Nil
  }

  /** How `jsonrpc_execute` reads the JSON-RPC 2.0 envelope. */
  function JsonResult(reply: HttpReply): (r: Value)
    // a 200 reply with a `result` key yields that value, even a falsy one
    ensures reply.HttpResponse? && reply.status == 200 && reply.body.Some? && "result" in reply.body.value
            ==> r == reply.body.value["result"]
    // an exception, another status, an unreadable body, an `error` key without
    // `result`, or neither key: all yield None
    ensures !(reply.HttpResponse? && reply.status == 200 && reply.body.Some? && "result" in reply.body.value)
            ==> r == Nil
  {
    match reply
    case HttpRaised(_) => Nil
    case HttpResponse(status, body, _) =>
      if status != 200 || body.None? then Nil
      else if "result" in body.value then body.value["result"]
      else if "error" in body.value then Nil
      else Nil
  }

  /** What a call puts on the wire: the request itself, unless the XML-RPC
      marshaller refuses it. */
  function OnWire(p: Protocol, r: Request): (rs: seq<Request>)
    ensures rs == [] || rs == [r]
    ensures rs == [] <==> p.XmlRpc? && RequestMarshalError(r).Some?
  {
    if p.XmlRpc? && RequestMarshalError(r).Some? then [] else [r]
  }

  /** Sends the `execute_kw` request of an authenticated session. */
  function Call(w: World, o: Oracles, p: Protocol, model: string, methodName: string, args: seq<Value>): (r: (World, Value))
    requires !NeedsAuth(w.session, p)
    ensures r.0 == World(w.session, w.sent + OnWire(p, CallRequest(w.session, p, model, methodName, args)))
  {
    var req := CallRequest(w.session, p, model, methodName, args);
    match p
    case XmlRpc =>
      var (sent, reply) := XmlExchange(o, w.sent, req);
      (World(w.session, sent), XmlResult(reply))
    case JsonRpc =>
      var sent := w.sent + [req];
      (World(w.session, sent), JsonResult(o.answerJson(sent)))
  }

  /** `xmlrpc_execute` / `jsonrpc_execute`: authenticate first when needed and
      give up with `None` if that fails; otherwise one `execute_kw` call. */
  function Execute(w: World, o: Oracles, p: Protocol, model: string, methodName: string, args: seq<Value>): (r: (World, Value))
    ensures w.sent <= r.0.sent && |r.0.sent| <= |w.sent| + 2
    ensures SameConfig(w.session, r.0.session)
    ensures Valid(w.session) ==> Valid(r.0.session)
  {
    if !NeedsAuth(w.session, p) then Call(w, o, p, model, methodName, args)
    else
      var (w1, ok) := Authenticate(w, o, p);
      if ok then Call(w1, o, p, model, methodName, args) else (w1, Nil)
  }

  // ---------------------------------------------------------------------
  // Single-record operations on crm.lead

  /** What one operation may do to the world: append at most a login and
      one call to the history, and keep the configuration and the invariant. */
  predicate Step(w: World, w1: World)
  {
    && w.sent <= w1.sent && |w1.sent| <= |w.sent| + 2
    && SameConfig(w.session, w1.session)
    && (Valid(w.session) ==> Valid(w1.session))
  }

  /** `create_lead_*`: the id the server returns, or `None`. */
  function CreateLead(w: World, o: Oracles, p: Protocol, lead: Value): (r: (World, Value))
    ensures Step(w, r.0)
  {
    Execute(w, o, p, LeadModel, "create", [List([lead])])
  }

  /** A missing `fields` argument reads all fields (`[]`). */
  function FieldsOrAll(fields: Option<seq<string>>): seq<string>
  {
    if fields.Some? then fields.value else []
  }

  /** What `read_lead_*` makes of the server's answer `v`:
      `v[0] if v and len(v) > 0 else None`, where `len` raises on an int, a
      bool or None, and `v[0]` raises on a dict (its keys are strings); both
      exceptions are caught and give None. */
  function FirstRecord(v: Value): (r: Value)
    ensures v.List? && v.items != [] ==> r == v.items[0]
    ensures v.Str? && v.s != "" ==> r == Str([v.s[0]])
    ensures !(v.List? && v.items != []) && !(v.Str? && v.s != "") ==> r == Nil
  {
    match v
    case List(items) => if items != [] then items[0] else Nil
    case Str(t) => if t != "" then Str([t[0]]) else Nil
    case _ => Nil
  }

  /** `read_lead_*`: the first record of the answer, or None. */
  function ReadLead(w: World, o: Oracles, p: Protocol, id: int, fields: Option<seq<string>>): (r: (World, Value))
    ensures Step(w, r.0)
  {
    var (w1, v) := Execute(w, o, p, LeadModel, "read",
                           [List([Int(id)]), Dict(map["fields" := Strs(FieldsOrAll(fields))])]);
    (w1, FirstRecord(v))
  }

  /** `update_lead_*`: the server's answer to `write`, unchanged. */
  function UpdateLead(w: World, o: Oracles, p: Protocol, id: int, data: Value): (r: (World, Value))
    ensures Step(w, r.0)
  {
    Execute(w, o, p, LeadModel, "write", [List([Int(id)]), data])
  }

  /** `delete_lead_*`: the server's answer to `unlink`, unchanged. */
  function DeleteLead(w: World, o: Oracles, p: Protocol, id: int): (r: (World, Value))
    ensures Step(w, r.0)
  {
    Execute(w, o, p, LeadModel, "unlink", [List([Int(id)])])
  }

  // ---------------------------------------------------------------------
  // Search

  /** The optional search keywords: each is present only when truthy, and
      then carries the caller's value verbatim. */
  function OptionalKwargs(offset: int, limit: Option<int>, order: Option<string>): (k: map<string, Value>)
    ensures k.Keys <= {"offset", "limit", "order"}
    ensures "offset" in k <==> offset != 0
    ensures "limit" in k <==> limit.Some? && limit.value != 0
    ensures "order" in k <==> order.Some? && order.value != ""
    ensures "offset" in k ==> k["offset"] == Int(offset)
    ensures "limit" in k ==> k["limit"] == Int(limit.value)
    ensures "order" in k ==> k["order"] == Str(order.value)
  {
    var k1 := if offset != 0 then map["offset" := Int(offset)] else map[];
    var k2 := if limit.Some? && limit.value != 0 then k1["limit" := Int(limit.value)] else k1;
    if order.Some? && order.value != "" then k2["order" := Str(order.value)] else k2
  }

  /** The keyword dictionary of `search_read_leads_*`: `fields` always,
      the optional keywords when truthy. */
  function SearchReadKwargs(fields: Option<seq<string>>, offset: int, limit: Option<int>, order: Option<string>): (k: map<string, Value>)
    ensures "fields" in k && k["fields"] == Strs(FieldsOrAll(fields))
    ensures k - {"fields"} == OptionalKwargs(offset, limit, order)
  {
    map["fields" := Strs(FieldsOrAll(fields))] + OptionalKwargs(offset, limit, order)
  }

  /** What the search operations return for the server's answer `v`: logging
      `len(v)` raises on None, an int or a bool, and the caught exception
      yields `[]`; any sized answer is returned as it is. */
  function SearchResult(v: Value): (r: Value)
    ensures Sized(v) ==> r == v
    ensures !Sized(v) ==> r == List([])
  {
    if Sized(v) then v else List([])
  }

  /** `search_leads_*`. The keyword dictionary travels as the second
      positional element of the `execute_kw` argument list. */
  function SearchLeads(w: World, o: Oracles, p: Protocol, domain: seq<Value>,
                       offset: int, limit: Option<int>, order: Option<string>): (r: (World, Value))
    ensures Step(w, r.0) && Sized(r.1)
  {
    var (w1, v) := Execute(w, o, p, LeadModel, "search",
                           [List(domain), Dict(OptionalKwargs(offset, limit, order))]);
    (w1, SearchResult(v))
  }

  /** `search_read_leads_*`. */
  function SearchReadLeads(w: World, o: Oracles, p: Protocol, domain: seq<Value>, fields: Option<seq<string>>,
                           offset: int, limit: Option<int>, order: Option<string>): (r: (World, Value))
    ensures Step(w, r.0) && Sized(r.1)
  {
    var (w1, v) := Execute(w, o, p, LeadModel, "search_read",
                           [List(domain), Dict(SearchReadKwargs(fields, offset, limit, order))]);
    (w1, SearchResult(v))
  }

  // ---------------------------------------------------------------------
  // Best-effort batches

  /** Runs `step` on every item in order, threading the world and collecting
      each item's result; nothing stops the loop early. */
  function Each<T>(w: World, items: seq<T>, step: (World, T) -> (World, Value)): (r: (World, seq<Value>))
    ensures |r.1| == |items|
    decreases |items|
  {
    if items == [] then (w, [])
    else
      var (w1, outs) := Each(w, items[..|items| - 1], step);
      var (w2, out) := step(w1, items[|items| - 1]);
      (w2, outs + [out])
  }

  /** The results a batch create keeps: the truthy ones, in order. */
  function TruthyOnly(vs: seq<Value>): (r: seq<Value>)
    ensures |r| <= |vs|
    ensures forall i | 0 <= i < |r| :: Truthy(r[i])
  {
    if vs == [] then []
    else if Truthy(vs[|vs| - 1]) then TruthyOnly(vs[..|vs| - 1]) + [vs[|vs| - 1]]
    else TruthyOnly(vs[..|vs| - 1])
  }

  /** The dictionary a batch update or delete builds: `results[keys[i]] = vals[i]`
      for each i in order, so the last write to a key wins. */
  function Collect(keys: seq<int>, vals: seq<Value>): (m: map<int, Value>)
    requires |keys| == |vals|
    ensures forall k :: k in m <==> k in keys
  {
    if keys == [] then map[]
    else
      var n := |keys| - 1;
      assert forall k :: k in keys <==> k in keys[..n] || k == keys[n];
      Collect(keys[..n], vals[..n])[keys[n] := vals[n]]
  }

  function CreateStep(o: Oracles, p: Protocol): (World, Value) -> (World, Value)
  {
    (w, lead) => CreateLead(w, o, p, lead)
  }

  function UpdateStep(o: Oracles, p: Protocol): (World, (int, Value)) -> (World, Value)
  {
    (w, u: (int, Value)) => UpdateLead(w, o, p, u.0, u.1)
  }

  function DeleteStep(o: Oracles, p: Protocol): (World, int) -> (World, Value)
  {
    (w, id) => DeleteLead(w, o, p, id)
  }

  /** `create_leads_batch_*`: one create per input, the truthy ids kept in order. */
  function CreateBatch(w: World, o: Oracles, p: Protocol, leads: seq<Value>): (r: (World, seq<Value>))
    ensures |r.1| <= |leads|
    ensures forall i | 0 <= i < |r.1| :: Truthy(r.1[i])
  {
    var (w1, outs) := Each(w, leads, CreateStep(o, p));
    (w1, TruthyOnly(outs))
  }

  function Ids(updates: seq<(int, Value)>): (ids: seq<int>)
    ensures |ids| == |updates|
    ensures forall i | 0 <= i < |updates| :: ids[i] == updates[i].0
  {
    seq(|updates|, i requires 0 <= i < |updates| => updates[i].0)
  }

  /** `update_leads_batch_*`, over the dictionary's items in iteration order. */
  function UpdateBatch(w: World, o: Oracles, p: Protocol, updates: seq<(int, Value)>): (r: (World, map<int, Value>))
    ensures forall k :: k in r.1 <==> exists i | 0 <= i < |updates| :: updates[i].0 == k
  {
    var (w1, outs) := Each(w, updates, UpdateStep(o, p));
    (w1, Collect(Ids(updates), outs))
  }

  /** `delete_leads_batch_*`. */
  function DeleteBatch(w: World, o: Oracles, p: Protocol, ids: seq<int>): (r: (World, map<int, Value>))
    ensures forall k :: k in r.1 <==> k in ids
  {
    var (w1, outs) := Each(w, ids, DeleteStep(o, p));
    (w1, Collect(ids, outs))
  }
}
