/** The `OdooAPI` class of odoo_api_demo.py: its fields are updated in place
    by authentication, and execute authenticates implicitly. Every method is
    proved to leave the object (and the transport's log) exactly as the
    corresponding function of `OdooSpec` says, and to return what it returns. */
module OdooClient {
  import opened PyValue
  import opened Wire
  import S = OdooSpec

  class OdooAPI {
    const url: string
    const db: string
    const username: string
    const password: string
    const jsonrpcUrl: string
    var uid: Value
    var xmlrpcCommon: Option<string>
    var xmlrpcModels: Option<string>
    var sessionId: Option<string>
    /** Both the XML-RPC proxies and `requests.post` talk through this. */
    const net: Transport

    /** The object's fields and the requests sent so far. */
    function State(): S.World
      reads this, net
    {
      S.World(S.Session(url, db, username, password, uid, xmlrpcCommon, xmlrpcModels, jsonrpcUrl, sessionId),
              net.sent)
    }

    ghost predicate Valid()
      reads this, net
    {
      S.Valid(State().session)
    }

    constructor (url: string, db: string, username: string, password: string, net: Transport)
      ensures this.net == net && Valid()
      ensures State() == S.World(S.NewSession(url, db, username, password), net.sent)
    {
      var base := S.RStripSlashes(url);
      this.url := base;
      this.db := db;
      this.username := username;
      this.password := password;
      uid := Nil;
      xmlrpcCommon := None;
      xmlrpcModels := None;
      jsonrpcUrl := base + "/jsonrpc";
      sessionId := None;
      this.net := net;
    }

    method XmlAuthenticate() returns (ok: bool)
      requires Valid()
      modifies this, net
      ensures Valid()
      ensures (State(), ok) == S.XmlAuthenticate(old(State()), net.oracles)
    {
      var common := url + "/xmlrpc/2/common";
      xmlrpcCommon := Some(common);
      var reply := net.SendXml(AuthenticateCall(common, db, username, password));
      match reply {
        case XmlRaised(_) =>
          ok := false;
        case XmlReturned(v) =>
          uid := v;
          if Truthy(v) {
            xmlrpcModels := Some(url + "/xmlrpc/2/object");
            ok := true;
          } else {
            ok := false;
          }
      }
    }

    method JsonAuthenticate() returns (ok: bool)
      requires Valid()
      modifies this, net
      ensures Valid()
      ensures (State(), ok) == S.JsonAuthenticate(old(State()), net.oracles)
    {
      var reply := net.SendJson(JsonRpcPost(jsonrpcUrl, "common", "login", [Str(db), Str(username), Str(password)], None));
      match reply {
        case HttpRaised(_) =>
          ok := false;
        case HttpResponse(status, body, cookie) =>
          if status == 200 {
            if body.Some? && "result" in body.value && Truthy(body.value["result"]) {
              uid := body.value["result"];
              sessionId := cookie;
              ok := true;
            } else {
              ok := false;
            }
          } else {
            ok := false;
          }
      }
    }

    method XmlExecute(model: string, methodName: string, args: seq<Value>) returns (result: Value)
      requires Valid()
      modifies this, net
      ensures Valid()
      ensures (State(), result) == S.Execute(old(State()), net.oracles, S.XmlRpc, model, methodName, args)
    {
      if !Truthy(uid) || xmlrpcModels.None? {
        var ok := XmlAuthenticate();
        if !ok {
          return Nil;
        }
      }
      var reply := net.SendXml(ExecuteKwCall(xmlrpcModels.value, db, uid, password, model, methodName, args));
      match reply {
        case XmlReturned(v) => result := v;
        case XmlRaised(_) => result := Nil;
      }
    }

    method JsonExecute(model: string, methodName: string, args: seq<Value>) returns (result: Value)
      requires Valid()
      modifies this, net
      ensures Valid()
      ensures (State(), result) == S.Execute(old(State()), net.oracles, S.JsonRpc, model, methodName, args)
    {
      if !Truthy(uid) {
        var ok := JsonAuthenticate();
        if !ok {
          return Nil;
        }
      }
      var cookie: Option<string> := None;
      if sessionId.Some? && sessionId.value != "" {
        cookie := sessionId;
      }
      var reply := net.SendJson(JsonRpcPost(jsonrpcUrl, "object", "execute_kw",
                                            [Str(db), uid, Str(password), Str(model), Str(methodName), List(args)],
                                            cookie));
      match reply {
        case HttpRaised(_) =>
          result := Nil;
        case HttpResponse(status, body, _) =>
          if status == 200 {
            if body.None? {
              result := Nil;
            } else if "result" in body.value {
              result := body.value["result"];
            } else if "error" in body.value {
              result := Nil;
            } else {
              result := Nil;
            }
          } else {
            result := Nil;
          }
      }
    }

    /** The execute of the chosen transport; every operation below exists
        once per transport in the source. */
    method Execute(p: S.Protocol, model: string, methodName: string, args: seq<Value>) returns (result: Value)
      requires Valid()
      modifies this, net
      ensures Valid()
      ensures (State(), result) == S.Execute(old(State()), net.oracles, p, model, methodName, args)
    {
      match p {
        case XmlRpc => result := XmlExecute(model, methodName, args);
        case JsonRpc => result := JsonExecute(model, methodName, args);
      }
    }

    method CreateLead(p: S.Protocol, leadData: Value) returns (leadId: Value)
      requires Valid()
      modifies this, net
      ensures Valid()
      ensures (State(), leadId) == S.CreateLead(old(State()), net.oracles, p, leadData)
    {
      leadId := Execute(p, S.LeadModel, "create", [List([leadData])]);
    }

    method ReadLead(p: S.Protocol, leadId: int, fields: Option<seq<string>>) returns (record: Value)
      requires Valid()
      modifies this, net
      ensures Valid()
      ensures (State(), record) == S.ReadLead(old(State()), net.oracles, p, leadId, fields)
    {
      var names: seq<string> := [];
      if fields.Some? {
        names := fields.value;
      }
      var leadData := Execute(p, S.LeadModel, "read", [List([Int(leadId)]), Dict(map["fields" := Strs(names)])]);
      record := S.FirstRecord(leadData);
    }

    method UpdateLead(p: S.Protocol, leadId: int, leadData: Value) returns (result: Value)
      requires Valid()
      modifies this, net
      ensures Valid()
      ensures (State(), result) == S.UpdateLead(old(State()), net.oracles, p, leadId, leadData)
    {
      result := Execute(p, S.LeadModel, "write", [List([Int(leadId)]), leadData]);
    }

    method DeleteLead(p: S.Protocol, leadId: int) returns (result: Value)
      requires Valid()
      modifies this, net
      ensures Valid()
      ensures (State(), result) == S.DeleteLead(old(State()), net.oracles, p, leadId)
    {
      result := Execute(p, S.LeadModel, "unlink", [List([Int(leadId)])]);
    }

    method SearchLeads(p: S.Protocol, domain: seq<Value>, offset: int, limit: Option<int>, order: Option<string>)
      returns (leadIds: Value)
      requires Valid()
      modifies this, net
      ensures Valid()
      ensures (State(), leadIds) == S.SearchLeads(old(State()), net.oracles, p, domain, offset, limit, order)
    {
      var kwargs: map<string, Value> := map[];
      if offset != 0 {
        kwargs := kwargs["offset" := Int(offset)];
      }
      if limit.Some? && limit.value != 0 {
        kwargs := kwargs["limit" := Int(limit.value)];
      }
      if order.Some? && order.value != "" {
        kwargs := kwargs["order" := Str(order.value)];
      }
      assert kwargs == S.OptionalKwargs(offset, limit, order);
      var found := Execute(p, S.LeadModel, "search", [List(domain), Dict(kwargs)]);
      leadIds := S.SearchResult(found);
    }

    method SearchReadLeads(p: S.Protocol, domain: seq<Value>, fields: Option<seq<string>>,
                           offset: int, limit: Option<int>, order: Option<string>)
      returns (leads: Value)
      requires Valid()
      modifies this, net
      ensures Valid()
      ensures (State(), leads) == S.SearchReadLeads(old(State()), net.oracles, p, domain, fields, offset, limit, order)
    {
      var names: seq<string> := [];
      if fields.Some? {
        names := fields.value;
      }
      var kwargs: map<string, Value> := map["fields" := Strs(names)];
      if offset != 0 {
        kwargs := kwargs["offset" := Int(offset)];
      }
      if limit.Some? && limit.value != 0 {
        kwargs := kwargs["limit" := Int(limit.value)];
      }
      if order.Some? && order.value != "" {
        kwargs := kwargs["order" := Str(order.value)];
      }
      assert kwargs == S.SearchReadKwargs(fields, offset, limit, order);
      var found := Execute(p, S.LeadModel, "search_read", [List(domain), Dict(kwargs)]);
      leads := S.SearchResult(found);
    }

    method CreateLeadsBatch(p: S.Protocol, leadsData: seq<Value>) returns (leadIds: seq<Value>)
      requires Valid()
      modifies this, net
      ensures Valid()
      ensures (State(), leadIds) == S.CreateBatch(old(State()), net.oracles, p, leadsData)
    {
      leadIds := [];
      ghost var outs: seq<Value> := [];
      for i := 0 to |leadsData|
        invariant Valid()
        invariant (State(), outs) == S.Each(old(State()), leadsData[..i], S.CreateStep(net.oracles, p))
        invariant leadIds == S.TruthyOnly(outs)
      {
        ghost var done := outs;
        var leadId := CreateLead(p, leadsData[i]);
        if Truthy(leadId) {
          leadIds := leadIds + [leadId];
        }
        outs := outs + [leadId];
        assert leadsData[..i + 1][..i] == leadsData[..i];
        assert outs[..|outs| - 1] == done;
      }
      assert leadsData[..|leadsData|] == leadsData;
    }

    /** `update_leads_batch_*`: `leadsUpdates` lists the dictionary's items
        in its iteration order. */
    method UpdateLeadsBatch(p: S.Protocol, leadsUpdates: seq<(int, Value)>) returns (results: map<int, Value>)
      requires Valid()
      modifies this, net
      ensures Valid()
      ensures (State(), results) == S.UpdateBatch(old(State()), net.oracles, p, leadsUpdates)
    {
      results := map[];
      ghost var outs: seq<Value> := [];
      for i := 0 to |leadsUpdates|
        invariant Valid()
        invariant (State(), outs) == S.Each(old(State()), leadsUpdates[..i], S.UpdateStep(net.oracles, p))
        invariant results == S.Collect(S.Ids(leadsUpdates)[..i], outs)
      {
        ghost var done := outs;
        var (leadId, updateData) := leadsUpdates[i];
        var success := UpdateLead(p, leadId, updateData);
        results := results[leadId := success];
        outs := outs + [success];
        assert leadsUpdates[..i + 1][..i] == leadsUpdates[..i];
        assert S.Ids(leadsUpdates)[..i + 1][..i] == S.Ids(leadsUpdates)[..i];
        assert outs[..|outs| - 1] == done;
      }
      assert leadsUpdates[..|leadsUpdates|] == leadsUpdates;
      assert S.Ids(leadsUpdates)[..|leadsUpdates|] == S.Ids(leadsUpdates);
    }

    method DeleteLeadsBatch(p: S.Protocol, leadIds: seq<int>) returns (results: map<int, Value>)
      requires Valid()
      modifies this, net
      ensures Valid()
      ensures (State(), results) == S.DeleteBatch(old(State()), net.oracles, p, leadIds)
    {
      results := map[];
      ghost var outs: seq<Value> := [];
      for i := 0 to |leadIds|
        invariant Valid()
        invariant (State(), outs) == S.Each(old(State()), leadIds[..i], S.DeleteStep(net.oracles, p))
        invariant results == S.Collect(leadIds[..i], outs)
      {
        ghost var done := outs;
        var leadId := leadIds[i];
        var success := DeleteLead(p, leadId);
        results := results[leadId := success];
        outs := outs + [success];
        assert leadIds[..i + 1][..i] == leadIds[..i];
        assert outs[..|outs| - 1] == done;
      }
      assert leadIds[..|leadIds|] == leadIds;
    }
  }
}
