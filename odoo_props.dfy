/** What the `OdooAPI` client promises, proved about the functions of
    `OdooSpec` for every possible server behaviour. */
module OdooProps {
  import opened PyValue
  import opened Wire
  import opened OdooSpec

  // ---------------------------------------------------------------------
  // Authentication

  /** XML-RPC authentication sends one `authenticate` call, stores whatever
      comes back as `uid` (a falsy value too), succeeds exactly on a truthy
      uid and only then builds the models proxy. An exception leaves `uid`
      and the models proxy as they were. */
  lemma XmlAuthenticateStoresReply(w: World, o: Oracles)
    ensures var (w1, ok) := XmlAuthenticate(w, o);
            var reply := o.answerXml(w.sent + [XmlAuthRequest(w.session)]);
            && w1.sent == w.sent + [XmlAuthRequest(w.session)]
            && w1.session.xmlCommon == Some(CommonEndpoint(w.session.url))
            && (ok <==> reply.XmlReturned? && Truthy(reply.value))
            && (reply.XmlReturned? ==> w1.session.uid == reply.value)
            && (reply.XmlRaised? ==> w1.session.uid == w.session.uid)
            && w1.session.xmlModels == (if ok then Some(ObjectEndpoint(w.session.url)) else w.session.xmlModels)
            && w1.session.sessionId == w.session.sessionId
            && SameConfig(w.session, w1.session)
  {
  }

  /** JSON-RPC authentication sends one `login` call and changes the session
      only on a 200 reply whose `result` is truthy: then `uid` is that result
      and `session_id` the reply's cookie. On any failure nothing changes. */
  lemma JsonAuthenticateChangesOnlyOnSuccess(w: World, o: Oracles)
    ensures var (w1, ok) := JsonAuthenticate(w, o);
            var reply := o.answerJson(w.sent + [JsonAuthRequest(w.session)]);
            && w1.sent == w.sent + [JsonAuthRequest(w.session)]
            && (ok <==> && reply.HttpResponse? && reply.status == 200 && reply.body.Some?
                        && "result" in reply.body.value && Truthy(reply.body.value["result"]))
            && (ok ==> w1.session == w.session.(uid := reply.body.value["result"], sessionId := reply.sessionCookie))
            && (!ok ==> w1.session == w.session)
  {
  }

  // ---------------------------------------------------------------------
  // Execute

  /** An authenticated session keeps its fields and sends one `execute_kw`
      request with its uid, unless the XML-RPC marshaller refuses it. It
      returns what the transport makes of the reply: the value of an XML-RPC
      call, the `result` member of a JSON-RPC reply, and None for a refused
      call, an exception or an error reply. */
  lemma ExecuteWhenAuthenticated(w: World, o: Oracles, p: Protocol, model: string, methodName: string, args: seq<Value>)
    requires !NeedsAuth(w.session, p)
    ensures var req := CallRequest(w.session, p, model, methodName, args);
            var r := Execute(w, o, p, model, methodName, args);
            && r.0 == World(w.session, w.sent + OnWire(p, req))
            && (p.XmlRpc? && RequestMarshalError(req).Some? ==> r.1 == Nil)
            && (p.XmlRpc? && RequestMarshalError(req).None? ==> r.1 == XmlResult(o.answerXml(w.sent + [req])))
            && (p.JsonRpc? ==> r.1 == JsonResult(o.answerJson(w.sent + [req])))
  {
  }

  /** Implicit authentication that fails: execute returns None and the only
      request on the wire is the authentication call, so the remote method
      is never invoked. */
  lemma ExecuteAuthFailure(w: World, o: Oracles, p: Protocol, model: string, methodName: string, args: seq<Value>)
    requires NeedsAuth(w.session, p) && !Authenticate(w, o, p).1
    ensures var r := Execute(w, o, p, model, methodName, args);
            && r.1 == Nil
            && r.0 == Authenticate(w, o, p).0
            && r.0.sent == w.sent + [AuthRequest(w.session, p)]
  {
  }

  /** Implicit authentication that succeeds: the authentication call and
      then the `execute_kw` call with the fresh uid (unless the XML-RPC
      marshaller refuses it), nothing else; the result is read from the
      reply to that call as for an authenticated session. */
  lemma ExecuteAfterLogin(w: World, o: Oracles, p: Protocol, model: string, methodName: string, args: seq<Value>)
    requires NeedsAuth(w.session, p) && Authenticate(w, o, p).1
    ensures var w1 := Authenticate(w, o, p).0;
            var req := CallRequest(w1.session, p, model, methodName, args);
            var r := Execute(w, o, p, model, methodName, args);
            && !NeedsAuth(w1.session, p)
            && w1.sent == w.sent + [AuthRequest(w.session, p)]
            && r.0 == World(w1.session, w1.sent + OnWire(p, req))
            && (p.XmlRpc? && RequestMarshalError(req).Some? ==> r.1 == Nil)
            && (p.XmlRpc? && RequestMarshalError(req).None? ==> r.1 == XmlResult(o.answerXml(w1.sent + [req])))
            && (p.JsonRpc? ==> r.1 == JsonResult(o.answerJson(w1.sent + [req])))
  {
  }

  /** The single-record operations keep the session invariant. */
  lemma LeadOperationsKeepValid(w: World, o: Oracles, p: Protocol, id: int, data: Value)
    requires Valid(w.session)
    ensures Valid(CreateLead(w, o, p, data).0.session)
    ensures Valid(UpdateLead(w, o, p, id, data).0.session)
    ensures Valid(DeleteLead(w, o, p, id).0.session)
  {
  }

  /** With an authenticated session each operation sends (at most) one
      `execute_kw` call on `crm.lead`: `create` with the record wrapped in a
      list, `read` with the id in a list and the requested field names (all
      fields, `[]`, when none are given), `write` with the id in a list and
      the new values, `unlink` with the id in a list, and `search` and
      `search_read` with the domain and the keyword dictionary as the second
      positional argument. */
  lemma LeadOperationRequests(w: World, o: Oracles, p: Protocol, id: int, data: Value, fields: Option<seq<string>>,
                              domain: seq<Value>, offset: int, limit: Option<int>, order: Option<string>)
    requires !NeedsAuth(w.session, p)
    ensures CreateLead(w, o, p, data).0
            == World(w.session, w.sent + OnWire(p, CallRequest(w.session, p, "crm.lead", "create", [List([data])])))
    ensures ReadLead(w, o, p, id, fields).0
            == World(w.session, w.sent + OnWire(p, CallRequest(w.session, p, "crm.lead", "read",
                                                               [List([Int(id)]), Dict(map["fields" := Strs(FieldsOrAll(fields))])])))
    ensures fields.None? ==> Strs(FieldsOrAll(fields)) == List([])
    ensures UpdateLead(w, o, p, id, data).0
            == World(w.session, w.sent + OnWire(p, CallRequest(w.session, p, "crm.lead", "write", [List([Int(id)]), data])))
    ensures DeleteLead(w, o, p, id).0
            == World(w.session, w.sent + OnWire(p, CallRequest(w.session, p, "crm.lead", "unlink", [List([Int(id)])])))
    ensures SearchLeads(w, o, p, domain, offset, limit, order).0
            == World(w.session, w.sent + OnWire(p, CallRequest(w.session, p, "crm.lead", "search",
                                                               [List(domain), Dict(OptionalKwargs(offset, limit, order))])))
    ensures SearchReadLeads(w, o, p, domain, fields, offset, limit, order).0
            == World(w.session, w.sent + OnWire(p, CallRequest(w.session, p, "crm.lead", "search_read",
                                                               [List(domain), Dict(SearchReadKwargs(fields, offset, limit, order))])))
  {
  }

  /** Over XML-RPC a lead id outside 32 bits cannot be marshalled: read,
      update and delete send nothing, keep the session and return None. */
  lemma OutOfRangeIdNotSent(w: World, o: Oracles, id: int, data: Value, fields: Option<seq<string>>)
    requires !NeedsAuth(w.session, XmlRpc)
    requires id < MinXmlRpcInt || MaxXmlRpcInt < id
    ensures ReadLead(w, o, XmlRpc, id, fields) == (w, Nil)
    ensures UpdateLead(w, o, XmlRpc, id, data) == (w, Nil)
    ensures DeleteLead(w, o, XmlRpc, id) == (w, Nil)
  {
    assert !Marshallable([Int(id)][0]);
  }

  // ---------------------------------------------------------------------
  // Batches: generic facts about running one operation per item

  /** Running the items of `a + b` is running those of `a`, then those of
      `b` from where `a` left the world: no item is skipped and none stops
      the rest. */
  lemma {:induction false} EachSplit<T>(w: World, a: seq<T>, b: seq<T>, step: (World, T) -> (World, Value))
    ensures var ra := Each(w, a, step);
            var rb := Each(ra.0, b, step);
            Each(w, a + b, step) == (rb.0, ra.1 + rb.1)
    decreases |b|
  {
    if b == [] {
      assert a + b == a;
      var ra := Each(w, a, step);
      assert ra.1 + [] == ra.1;
    } else {
      var n := |b| - 1;
      var b' := b[..n];
      assert (a + b)[..|a + b| - 1] == a + b';
      assert (a + b)[|a + b| - 1] == b[n];
      EachSplit(w, a, b', step);
      var ra := Each(w, a, step);
      var rb' := Each(ra.0, b', step);
      var last := step(rb'.0, b[n]);
      assert Each(w, a + b, step) == (last.0, (ra.1 + rb'.1) + [last.1]);
      assert Each(ra.0, b, step) == (last.0, rb'.1 + [last.1]);
      assert (ra.1 + rb'.1) + [last.1] == ra.1 + (rb'.1 + [last.1]);
    }
  }

  /** The i-th result of a batch is the single operation's own result on
      item i, run on the world the first i items left. */
  lemma EachItem<T>(w: World, items: seq<T>, step: (World, T) -> (World, Value), i: int)
    requires 0 <= i < |items|
    ensures Each(w, items, step).1[i] == step(Each(w, items[..i], step).0, items[i]).1
  {
    assert items == items[..i + 1] + items[i + 1..];
    EachSplit(w, items[..i + 1], items[i + 1..], step);
    assert items[..i + 1][..i] == items[..i];
  }

  /** A property every step keeps holds after the whole batch. */
  lemma {:induction false} EachPreserves<T>(w: World, items: seq<T>, step: (World, T) -> (World, Value), inv: World -> bool)
    requires inv(w)
    requires forall v: World, x: T :: inv(v) ==> inv(step(v, x).0)
    ensures inv(Each(w, items, step).0)
    decreases |items|
  {
    if items != [] {
      EachPreserves(w, items[..|items| - 1], step, inv);
    }
  }

  /** Each batch keeps the session invariant and the connection parameters. */
  lemma BatchesKeepValid(w: World, o: Oracles, p: Protocol, leads: seq<Value>, updates: seq<(int, Value)>, ids: seq<int>)
    requires Valid(w.session)
    ensures var s := CreateBatch(w, o, p, leads).0.session; Valid(s) && SameConfig(w.session, s)
    ensures var s := UpdateBatch(w, o, p, updates).0.session; Valid(s) && SameConfig(w.session, s)
    ensures var s := DeleteBatch(w, o, p, ids).0.session; Valid(s) && SameConfig(w.session, s)
  {
    var inv := (v: World) => Valid(v.session) && SameConfig(w.session, v.session);
    forall v: World, x: Value | inv(v) ensures inv(CreateStep(o, p)(v, x).0) {
      var r := CreateLead(v, o, p, x);
    }
    forall v: World, x: (int, Value) | inv(v) ensures inv(UpdateStep(o, p)(v, x).0) {
      var r := UpdateLead(v, o, p, x.0, x.1);
    }
    forall v: World, x: int | inv(v) ensures inv(DeleteStep(o, p)(v, x).0) {
      var r := DeleteLead(v, o, p, x);
    }
    EachPreserves(w, leads, CreateStep(o, p), inv);
    EachPreserves(w, updates, UpdateStep(o, p), inv);
    EachPreserves(w, ids, DeleteStep(o, p), inv);
  }

  // ---------------------------------------------------------------------
  // Batch create keeps the truthy ids in order

  lemma {:induction false} TruthyOnlyConcat(a: seq<Value>, b: seq<Value>)
    ensures TruthyOnly(a + b) == TruthyOnly(a) + TruthyOnly(b)
    decreases |b|
  {
    if b == [] {
      assert a + b == a;
    } else {
      var b' := b[..|b| - 1];
      assert (a + b)[..|a + b| - 1] == a + b';
      assert (a + b)[|a + b| - 1] == b[|b| - 1];
      TruthyOnlyConcat(a, b');
    }
  }

  /** A truthy result is kept, at the position given by the number of
      truthy results before it. */
  lemma TruthyOnlyKeeps(vs: seq<Value>, i: int)
    requires 0 <= i < |vs| && Truthy(vs[i])
    ensures |TruthyOnly(vs[..i])| < |TruthyOnly(vs)|
    ensures TruthyOnly(vs)[|TruthyOnly(vs[..i])|] == vs[i]
  {
    assert vs == vs[..i + 1] + vs[i + 1..];
    TruthyOnlyConcat(vs[..i + 1], vs[i + 1..]);
    assert vs[..i + 1][..i] == vs[..i];
  }

  /** Nothing is dropped exactly when every result is truthy. */
  lemma {:induction false} TruthyOnlyAll(vs: seq<Value>)
    ensures TruthyOnly(vs) == vs <==> forall i | 0 <= i < |vs| :: Truthy(vs[i])
    decreases |vs|
  {
    if vs != [] {
      var n := |vs| - 1;
      TruthyOnlyAll(vs[..n]);
      assert vs == vs[..n] + [vs[n]];
      if !Truthy(vs[n]) {
        assert |TruthyOnly(vs)| < |vs|;
      }
    }
  }

  /** The number of truthy results, counted from the front. */
  function CountTruthy(vs: seq<Value>): nat
  {
    if vs == [] then 0 else (if Truthy(vs[0]) then 1 else 0) + CountTruthy(vs[1..])
  }

  /** The batch answer holds as many ids as there are truthy results. */
  lemma {:induction false} TruthyOnlyCount(vs: seq<Value>)
    ensures |TruthyOnly(vs)| == CountTruthy(vs)
  {
    if vs != [] {
      assert vs == [vs[0]] + vs[1..];
      TruthyOnlyConcat([vs[0]], vs[1..]);
      assert [vs[0]][..0] == [];
      TruthyOnlyCount(vs[1..]);
    }
  }

  /** The `r`-th kept id is the truthy result `vs[i]`, preceded by `r`
      truthy results. */
  predicate KeptFrom(vs: seq<Value>, r: int, i: int)
  {
    0 <= i < |vs| && Truthy(vs[i]) && |TruthyOnly(vs[..i])| == r
    && 0 <= r < |TruthyOnly(vs)| && TruthyOnly(vs)[r] == vs[i]
  }

  /** The `r`-th kept id comes from some truthy result. */
  ghost predicate HasSource(vs: seq<Value>, r: int)
  {
    exists i :: KeptFrom(vs, r, i)
  }

  /** Every kept id is a truthy result, and sits at the rank of that result
      among the truthy ones. */
  lemma {:induction false} TruthyOnlySource(vs: seq<Value>, r: int)
    requires 0 <= r < |TruthyOnly(vs)|
    ensures HasSource(vs, r)
    decreases |vs|
  {
    var n := |vs| - 1;
    var init := vs[..n];
    if r < |TruthyOnly(init)| {
      TruthyOnlySource(init, r);
      var i :| KeptFrom(init, r, i);
      assert vs[..i] == init[..i];
      assert KeptFrom(vs, r, i);
    } else {
      assert vs[..n] == init;
      assert KeptFrom(vs, r, n);
    }
  }

  /** `create_leads_batch_*`: one create per input, in input order, each on
      the world the earlier ones left; the answer holds exactly the truthy
      ids, in the order of their inputs. */
  lemma CreateBatchResult(w: World, o: Oracles, p: Protocol, leads: seq<Value>)
    ensures var outs := Each(w, leads, CreateStep(o, p)).1;
            var ids := CreateBatch(w, o, p, leads).1;
            && |outs| == |leads|
            && (forall i | 0 <= i < |leads| ::
                  outs[i] == CreateLead(Each(w, leads[..i], CreateStep(o, p)).0, o, p, leads[i]).1)
            && ids == TruthyOnly(outs)
            && (forall i | 0 <= i < |ids| :: Truthy(ids[i]))
            && (forall i | 0 <= i < |leads| && Truthy(outs[i]) ::
                  |TruthyOnly(outs[..i])| < |ids| && ids[|TruthyOnly(outs[..i])|] == outs[i])
            && (|ids| == |leads| <==> forall i | 0 <= i < |leads| :: Truthy(outs[i]))
  {
    var outs := Each(w, leads, CreateStep(o, p)).1;
    forall i | 0 <= i < |leads|
      ensures outs[i] == CreateLead(Each(w, leads[..i], CreateStep(o, p)).0, o, p, leads[i]).1
    {
      EachItem(w, leads, CreateStep(o, p), i);
    }
    forall i | 0 <= i < |leads| && Truthy(outs[i])
      ensures |TruthyOnly(outs[..i])| < |TruthyOnly(outs)| && TruthyOnly(outs)[|TruthyOnly(outs[..i])|] == outs[i]
    {
      TruthyOnlyKeeps(outs, i);
    }
    TruthyOnlyAll(outs);
    forall i | 0 <= i < |outs| && !Truthy(outs[i]) ensures |TruthyOnly(outs)| < |outs| {
      TruthyOnlyShorter(outs, i);
    }
  }

  /** The batch create answer holds exactly as many ids as creates returned
      a truthy id, and each kept id is one of those results, at its rank. */
  lemma CreateBatchCount(w: World, o: Oracles, p: Protocol, leads: seq<Value>)
    ensures var outs := Each(w, leads, CreateStep(o, p)).1;
            var ids := CreateBatch(w, o, p, leads).1;
            && |ids| == CountTruthy(outs)
            && ids == TruthyOnly(outs)
            && (forall r | 0 <= r < |ids| :: HasSource(outs, r))
  {
    var outs := Each(w, leads, CreateStep(o, p)).1;
    TruthyOnlyRanks(outs);
  }

  lemma TruthyOnlyRanks(vs: seq<Value>)
    ensures |TruthyOnly(vs)| == CountTruthy(vs)
    ensures forall r | 0 <= r < |TruthyOnly(vs)| :: HasSource(vs, r)
  {
    TruthyOnlyCount(vs);
    forall r | 0 <= r < |TruthyOnly(vs)| ensures HasSource(vs, r) {
      TruthyOnlySource(vs, r);
    }
  }

  /** A falsy result is dropped, so the answer is shorter than the input. */
  lemma TruthyOnlyShorter(vs: seq<Value>, i: int)
    requires 0 <= i < |vs| && !Truthy(vs[i])
    ensures |TruthyOnly(vs)| < |vs|
  {
    assert vs == vs[..i] + ([vs[i]] + vs[i + 1..]);
    TruthyOnlyConcat(vs[..i], [vs[i]] + vs[i + 1..]);
    TruthyOnlyConcat([vs[i]], vs[i + 1..]);
    assert [vs[i]][..0] == [];
  }

  /** Batch create is best-effort: a batch over `a + b` is a batch over `a`
      followed by a batch over `b`, whatever failed in `a`. */
  lemma CreateBatchSplit(w: World, o: Oracles, p: Protocol, a: seq<Value>, b: seq<Value>)
    ensures var ra := CreateBatch(w, o, p, a);
            var rb := CreateBatch(ra.0, o, p, b);
            CreateBatch(w, o, p, a + b) == (rb.0, ra.1 + rb.1)
  {
    var ea := Each(w, a, CreateStep(o, p));
    EachSplit(w, a, b, CreateStep(o, p));
    TruthyOnlyConcat(ea.1, Each(ea.0, b, CreateStep(o, p)).1);
  }

  // ---------------------------------------------------------------------
  // Batch update and delete: one key per input id, last write wins

  lemma {:induction false} CollectLastWins(keys: seq<int>, vals: seq<Value>, i: int)
    requires |keys| == |vals| && 0 <= i < |keys| && keys[i] !in keys[i + 1..]
    ensures keys[i] in Collect(keys, vals) && Collect(keys, vals)[keys[i]] == vals[i]
    decreases |keys|
  {
    var n := |keys| - 1;
    if i < n {
      assert keys[n] in keys[i + 1..];
      assert keys[..n][i + 1..] == keys[i + 1..n];
      assert keys[..n][i] == keys[i];
      CollectLastWins(keys[..n], vals[..n], i);
    }
  }

  /** `delete_leads_batch_*`: the answer's keys are exactly the input ids;
      for each id, its value is the unchanged result of the last delete of
      that id, run on the world the earlier deletes left. */
  lemma DeleteBatchResult(w: World, o: Oracles, p: Protocol, ids: seq<int>)
    ensures var results := DeleteBatch(w, o, p, ids).1;
            && (forall k :: k in results <==> k in ids)
            && (forall i | 0 <= i < |ids| && ids[i] !in ids[i + 1..] ::
                  results[ids[i]] == DeleteLead(Each(w, ids[..i], DeleteStep(o, p)).0, o, p, ids[i]).1)
  {
    var outs := Each(w, ids, DeleteStep(o, p)).1;
    forall i | 0 <= i < |ids| && ids[i] !in ids[i + 1..]
      ensures Collect(ids, outs)[ids[i]] == DeleteLead(Each(w, ids[..i], DeleteStep(o, p)).0, o, p, ids[i]).1
    {
      CollectLastWins(ids, outs, i);
      EachItem(w, ids, DeleteStep(o, p), i);
    }
  }

  /** `update_leads_batch_*`: the answer's keys are exactly the ids of the
      input dictionary, each mapped to the unchanged result of its update. */
  lemma UpdateBatchResult(w: World, o: Oracles, p: Protocol, updates: seq<(int, Value)>)
    ensures var results := UpdateBatch(w, o, p, updates).1;
            && (forall k :: k in results <==> k in Ids(updates))
            && (forall i | 0 <= i < |updates| && updates[i].0 !in Ids(updates)[i + 1..] ::
                  results[updates[i].0]
                  == UpdateLead(Each(w, updates[..i], UpdateStep(o, p)).0, o, p, updates[i].0, updates[i].1).1)
  {
    var outs := Each(w, updates, UpdateStep(o, p)).1;
    forall i | 0 <= i < |updates| && updates[i].0 !in Ids(updates)[i + 1..]
      ensures Collect(Ids(updates), outs)[updates[i].0]
              == UpdateLead(Each(w, updates[..i], UpdateStep(o, p)).0, o, p, updates[i].0, updates[i].1).1
    {
      CollectLastWins(Ids(updates), outs, i);
      EachItem(w, updates, UpdateStep(o, p), i);
    }
  }
}
