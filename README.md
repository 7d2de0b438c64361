# Odoo CRM lead client and lead-capture chatbot, modelled in Dafny

This project models two Python programs that manage leads (`crm.lead`
records) in an Odoo server.

- **odoo_api_demo.py**: the `OdooAPI` client. It holds the server URL and
  credentials, authenticates over XML-RPC or JSON-RPC, and performs create,
  read, update, delete, search and search-read on leads. Batch variants run
  the single-record operation once per item.
- **chatbot.py**: a chat page. It keeps a transcript and watches the
  assistant's reply for the `[CREATE_LEAD]` sentinel. When the sentinel
  appears, it takes the text from the first `{` to the last `}` of a second
  generated reply as JSON and logs in over XML-RPC. Only after a successful login does it
  create a lead from the extracted name, email, phone and requirements.

## How the model is built

- **`PyValue`** (values.dfy): the dynamically typed Python values the code
  handles: None, bool, int, str, list and dict. It gives them Python
  truthiness and the `dict.get` default.
- **`Wire`** (wire.dfy): the network.
  - A `Transport` object records every request put on the wire, in order.
  - The server is a pair of oracle functions. Each one answers the newest
    request, given the whole request history.
  - Every result, error and exception the server could produce is therefore
    covered.
  - XML-RPC faults and network errors are both an `XmlRaised` reply.
  - The client-side XML-RPC marshaller is modelled. A `ServerProxy` built
    without `allow_none` refuses `None` anywhere in a call's parameters, and
    any int outside the signed 32-bit range. It then raises before sending,
    so such a call reaches neither the log nor the server.
  - An HTTP reply carries its status code and its decoded JSON object. The
    body is `None` when it is not a JSON object.
- **`OdooSpec`** (odoo_spec.dfy): the client as pure functions.
  - Each function maps the client's fields plus the request history (a
    `World`) to the new `World` and the returned value.
  - Every `_xmlrpc`/`_jsonrpc` pair in the source has identical bodies apart
    from the execute call. Each pair is therefore one function with a
    `Protocol` argument.
- **`OdooClient`** (odoo_api.dfy): the `OdooAPI` class itself.
  - Its fields are updated in place, and its batch operations are loops.
  - Every method is proved to leave the object and the transport exactly as
    the matching `OdooSpec` function says, and to return what that function
    returns.
  - The batch loops carry invariants that tie the prefix processed so far
    to the specification.
- **`OdooProps`** (odoo_props.dfy): what the client promises, proved for
  every server behaviour:
  - authentication effects;
  - implicit login before execute;
  - the session invariant;
  - the batch results: order, ids kept, last write wins for a repeated id.
- **`LeadChat`** (chatbot.dfy): the chat logic.
  - The transcript and its context string.
  - The sentinel test.
  - The `re.search(r'\{.*\}', text, re.DOTALL)` span, specified as Python's
    leftmost, greedy match.
  - The lead record built from the extracted fields, with the `TypeError`
    that a non-string name causes.
  - The auth-gated create, as the pure function `SubmitLead`.
  - A `ChatSession` class whose `HandleInput` method appends to the
    transcript and replaces `lead_info` exactly as the page does.
  - The text generator's replies and `json.loads` are inputs to
    `HandleInput`.

Python integers are unbounded, and Dafny's `int` is as well; the 32-bit
limit that XML-RPC puts on the ints it carries is part of the marshaller
above (JSON-RPC has none). Dict
arguments keyed by lead id (the batch update) are given as the sequence of
their items in iteration order.

## Model

| member | source | states |
|---|---|---|
| OdooSpec.RStripSlashes | odoo_api_demo.py:59 | the stored URL is a prefix of the given one, has no trailing `/`, and only `/` characters were removed |
| OdooSpec.NewSession | odoo_api_demo.py:49-67 | a new client keeps the credentials and the stripped URL, has `jsonrpc_url = url + "/jsonrpc"`, no uid, no proxies, no session id, and satisfies the session invariant |
| OdooClient.OdooAPI.constructor | odoo_api_demo.py:49-67 | the object's fields are those of `NewSession` and the invariant holds |
| OdooSpec.XmlAuthenticate | odoo_api_demo.py:72-94 | a successful XML-RPC login leaves a truthy uid and a models proxy |
| OdooSpec.JsonAuthenticate | odoo_api_demo.py:96-138 | a successful JSON-RPC login leaves a truthy uid |
| OdooProps.XmlAuthenticateStoresReply | odoo_api_demo.py:72-94 | one `authenticate` call to `/xmlrpc/2/common` is sent, and the common proxy is set; the returned uid is stored even when falsy; success is exactly a truthy uid, and only then is the models proxy for `/xmlrpc/2/object` set; an exception keeps the old uid and models proxy |
| OdooProps.JsonAuthenticateChangesOnlyOnSuccess | odoo_api_demo.py:96-138 | one `common.login` post is sent; success is exactly a 200 reply whose `result` is truthy; then uid becomes that result and session id the reply's cookie; on any failure nothing changes |
| OdooClient.OdooAPI.XmlAuthenticate | odoo_api_demo.py:72-94 | updates the fields and sends exactly what `OdooSpec.XmlAuthenticate` says, returns its verdict, keeps the invariant |
| OdooClient.OdooAPI.JsonAuthenticate | odoo_api_demo.py:96-138 | updates the fields and sends exactly what `OdooSpec.JsonAuthenticate` says, returns its verdict, keeps the invariant |
| OdooSpec.SessionCookie | odoo_api_demo.py:194-196 | the `session_id` cookie is sent if and only if the session id is truthy, and then verbatim |
| OdooSpec.XmlResult | odoo_api_demo.py:157-164 | an XML-RPC call yields the server's value, and any exception yields None |
| OdooSpec.JsonResult | odoo_api_demo.py:205-218 | a JSON-RPC call yields the body's `result` when the status is 200 and the body has one; every other reply (error member, other status, undecodable body, exception) yields None |
| OdooSpec.Execute | odoo_api_demo.py:140-218 | execute only appends to the request history, never changes the configuration, and keeps the session invariant |
| OdooSpec.OnWire | odoo_api_demo.py:157-159 | a call puts its request on the wire, or nothing exactly when it is an XML-RPC call the marshaller refuses |
| OdooSpec.Call | odoo_api_demo.py:140-218 | an authenticated call keeps the session and appends exactly `OnWire` of its `execute_kw` request to the history |
| OdooProps.ExecuteWhenAuthenticated | odoo_api_demo.py:153-214 | an authenticated client keeps its fields and sends one `execute_kw` request with its uid, unless XML-RPC cannot marshal it; it returns the value of the XML-RPC call, the `result` member of the JSON-RPC reply, and None for a refused call, an exception or an error reply |
| OdooProps.ExecuteAuthFailure | odoo_api_demo.py:153-155 | when the implicit login fails, execute returns None and the login request is the only one sent |
| OdooProps.ExecuteAfterLogin | odoo_api_demo.py:153-214 | when the implicit login succeeds, the login request and then the `execute_kw` with the new uid (unless it cannot be marshalled) are sent, nothing else; the result is read from the reply to that call as for an authenticated client |
| OdooClient.OdooAPI.XmlExecute | odoo_api_demo.py:140-164 | state change and result equal `OdooSpec.Execute` over XML-RPC |
| OdooClient.OdooAPI.JsonExecute | odoo_api_demo.py:166-218 | state change and result equal `OdooSpec.Execute` over JSON-RPC |
| OdooClient.OdooAPI.Execute | odoo_api_demo.py:140-218 | dispatches to the chosen transport, equal to `OdooSpec.Execute` |
| OdooProps.LeadOperationRequests | odoo_api_demo.py:222-501 | authenticated create, read, update, delete, search and search-read each send the single `crm.lead` call the source makes (unless XML-RPC cannot marshal it), with the source's method name and argument list; read with no field list asks for `[]` (all fields); search keywords travel as the second positional argument |
| OdooProps.LeadOperationsKeepValid | odoo_api_demo.py:222-380 | create, update and delete keep the session invariant |
| OdooProps.OutOfRangeIdNotSent | odoo_api_demo.py:262-380 | over XML-RPC, reading, updating or deleting a lead id outside 32 bits sends nothing, keeps the session and returns None |
| OdooSpec.CreateLead | odoo_api_demo.py:222-260 | `create` with the record in a list; appends at most a login and the call, keeps configuration and invariant |
| OdooSpec.ReadLead | odoo_api_demo.py:262-312 | `read` with `[id]` and the field list, then the first-record rule; appends at most a login and the call, keeps configuration and invariant |
| OdooSpec.UpdateLead | odoo_api_demo.py:314-358 | `write` with `[id]` and the values; appends at most a login and the call, keeps configuration and invariant |
| OdooSpec.DeleteLead | odoo_api_demo.py:360-404 | `unlink` with `[id]`; appends at most a login and the call, keeps configuration and invariant |
| OdooSpec.SearchLeads | odoo_api_demo.py:406-464 | `search` with the domain and the optional keywords; the answer is always a sized value (a list unless the server sent a string or dict); appends at most a login and the call |
| OdooSpec.SearchReadLeads | odoo_api_demo.py:466-538 | `search_read` with the domain and the keywords; the answer is always a sized value; appends at most a login and the call |
| OdooSpec.FirstRecord | odoo_api_demo.py:278-286 | read returns the first element of a non-empty list answer (the first character of a non-empty string), and None for anything else, including answers on which `len` or `[0]` raise |
| OdooClient.OdooAPI.CreateLead | odoo_api_demo.py:222-240 | equal to `OdooSpec.CreateLead`: `create` with the record in a list, returning the server's id or None |
| OdooClient.OdooAPI.ReadLead | odoo_api_demo.py:262-286 | equal to `OdooSpec.ReadLead` |
| OdooClient.OdooAPI.UpdateLead | odoo_api_demo.py:314-335 | equal to `OdooSpec.UpdateLead`: `write` on `[id]`, returning the server's answer |
| OdooClient.OdooAPI.DeleteLead | odoo_api_demo.py:360-380 | equal to `OdooSpec.DeleteLead`: `unlink` on `[id]`, returning the server's answer |
| OdooSpec.OptionalKwargs | odoo_api_demo.py:421-427 | the search keywords hold only `offset`, `limit`, `order`; each is present exactly when truthy, with the caller's value |
| OdooSpec.SearchReadKwargs | odoo_api_demo.py:483-494 | search-read keywords always hold `fields` (`[]` for all), plus exactly the optional keywords |
| OdooSpec.SearchResult | odoo_api_demo.py:429-434 | a sized answer is returned as is; an answer on which `len` raises (None, int, bool) gives `[]` |
| OdooClient.OdooAPI.SearchLeads | odoo_api_demo.py:406-434 | builds the keywords by conditional insertion, proved equal to `OptionalKwargs`; state and result equal `OdooSpec.SearchLeads` |
| OdooClient.OdooAPI.SearchReadLeads | odoo_api_demo.py:466-501 | builds the keywords, proved equal to `SearchReadKwargs`; state and result equal `OdooSpec.SearchReadLeads` |
| OdooSpec.Each | odoo_api_demo.py:556-559 | a batch runs the operation once per item: as many results as items |
| OdooSpec.TruthyOnly | odoo_api_demo.py:558-559 | the kept ids are all truthy and no more than the results |
| OdooSpec.Collect | odoo_api_demo.py:606-608 | the result dictionary's keys are exactly the ids processed |
| OdooSpec.CreateBatch | odoo_api_demo.py:542-590 | a batch create answers no more ids than inputs, all truthy |
| OdooSpec.UpdateBatch | odoo_api_demo.py:592-640 | a batch update's answer has exactly the input ids as keys |
| OdooSpec.DeleteBatch | odoo_api_demo.py:642-690 | a batch delete's answer has exactly the input ids as keys |
| OdooProps.EachSplit | odoo_api_demo.py:556-559 | a batch over `a + b` is the batch over `a` followed by the batch over `b` from the world `a` left |
| OdooProps.EachItem | odoo_api_demo.py:556-559 | the i-th result is the operation applied to the i-th item on the world left by the first i items |
| OdooProps.EachPreserves | odoo_api_demo.py:556-559 | a property kept by one operation is kept by the whole batch |
| OdooProps.BatchesKeepValid | odoo_api_demo.py:542-665 | all three batches keep the session invariant and the configuration |
| OdooProps.TruthyOnlyConcat | odoo_api_demo.py:558-559 | filtering the ids distributes over concatenation |
| OdooProps.TruthyOnlyKeeps | odoo_api_demo.py:558-559 | a truthy result is kept, at the position given by the truthy results before it |
| OdooProps.TruthyOnlyAll | odoo_api_demo.py:558-559 | nothing is dropped exactly when every result is truthy |
| OdooProps.TruthyOnlyShorter | odoo_api_demo.py:558-559 | a falsy result is dropped, so the answer is shorter than the input |
| OdooProps.TruthyOnlyCount | odoo_api_demo.py:558-559 | the kept ids are as many as the truthy results, counted independently |
| OdooProps.TruthyOnlySource | odoo_api_demo.py:558-559 | each kept id is a truthy result, at the rank of that result among the truthy ones |
| OdooProps.TruthyOnlyRanks | odoo_api_demo.py:558-559 | the count and the source of every kept id together |
| OdooProps.CreateBatchResult | odoo_api_demo.py:542-565 | one create per input in input order; the answer is exactly the truthy ids in input order; its length equals the input's exactly when every create succeeded |
| OdooProps.CreateBatchCount | odoo_api_demo.py:542-565 | the answer's length is the number of creates that returned a truthy id, and every id in it is one of those results, in order |
| OdooProps.CreateBatchSplit | odoo_api_demo.py:542-565 | a failed create does not stop the batch: batch of `a + b` is batch of `a` then batch of `b` |
| OdooProps.CollectLastWins | odoo_api_demo.py:606-608 | a repeated key maps to the value of its last occurrence |
| OdooProps.UpdateBatchResult | odoo_api_demo.py:592-615 | the answer's keys are exactly the input ids, each mapped to the unchanged result of its last update, run on the world the earlier updates left |
| OdooProps.DeleteBatchResult | odoo_api_demo.py:642-665 | the answer's keys are exactly the input ids, each mapped to the unchanged result of its last delete, run on the world the earlier deletes left |
| OdooClient.OdooAPI.CreateLeadsBatch | odoo_api_demo.py:542-565 | the loop's state change and answer equal `OdooSpec.CreateBatch` |
| OdooClient.OdooAPI.UpdateLeadsBatch | odoo_api_demo.py:592-615 | the loop's state change and answer equal `OdooSpec.UpdateBatch` |
| OdooClient.OdooAPI.DeleteLeadsBatch | odoo_api_demo.py:642-665 | the loop's state change and answer equal `OdooSpec.DeleteBatch` |
| Wire.Transport.SendXml | odoo_api_demo.py:81-85 | an XML-RPC call is exactly `XmlExchange`: a call that can be marshalled is appended to the history and yields the server's answer to it; any other raises the marshaller's error and sends nothing |
| Wire.Transport.SendJson | odoo_api_demo.py:116-120 | an HTTP post appends its request to the history and yields the server's answer to that history |
| Wire.FirstError | odoo_api_demo.py:157-158 | the marshaller stops at the first parameter it cannot encode: no error exactly when every check passes, else the first failing check's error |
| Wire.MarshalError | odoo_api_demo.py:157-158 | the marshaller raises exactly on values that are not `Marshallable` (a None anywhere or an int outside 32 bits), with Python's `TypeError` or `OverflowError` text |
| Wire.RequestMarshalError | odoo_api_demo.py:81-85 | `authenticate` calls always marshal; an `execute_kw` call marshals exactly when its uid and every argument do; JSON-RPC posts are not marshalled |
| Wire.XmlExchange | odoo_api_demo.py:157-164 | a refused call leaves the history alone and raises the marshaller's error; any other is appended and answered by the server |
| PyValue.Get | chatbot.py:103-106 | `dict.get` gives the stored value, or None for a missing key |
| LeadChat.Context | chatbot.py:43 | the context is empty exactly for an empty transcript and starts with the first message as `role: content` |
| LeadChat.ContextAppend | chatbot.py:43 | appending a message to a non-empty transcript appends a newline and `role: content` to the context |
| LeadChat.ContextLines | chatbot.py:43 | when no message holds a newline, splitting the context at newlines gives back `role: content` of each message, in order |
| LeadChat.Contains | chatbot.py:71 | the sentinel test is true exactly when the pattern occurs at some position of the reply |
| LeadChat.BraceSpan | chatbot.py:88-89 | no span exactly when no `{` precedes a `}`; otherwise the span is the match `re.search` reports: the leftmost start, and the longest match there |
| LeadChat.BraceSpanShape | chatbot.py:88-91 | the span opens with `{`, closes with `}`, sits in the text with no `{` before it and no `}` after it |
| LeadChat.LeadRecord | chatbot.py:101-107 | the record has exactly the five `crm.lead` fields; its name is the extracted name (or "New Lead") plus " Lead"; the others are `dict.get` of name, email, phone, requirements; a name that is not a string raises Python's `TypeError` text |
| LeadChat.AssistantText | chatbot.py:60-64 | the reply text, or "Error generating response: " and the exception |
| LeadChat.InitialLeadInfo | chatbot.py:27 | `lead_info` starts with name, email, phone and requirements all None |
| LeadChat.SubmitLead | chatbot.py:85-116 | the extraction path sends nothing or starts with the login; a created lead means both requests went out; an extraction error sends nothing and leaves `lead_info` alone |
| LeadChat.NoSpanNoRequest | chatbot.py:88-114 | without a brace span, "Failed to extract information." is shown and nothing is sent to the server |
| LeadChat.LeadInfoOnlyFromParse | chatbot.py:85-92 | `lead_info` is replaced exactly when a span was found and parsed, and then by the parsed object |
| LeadChat.CreateOnlyAfterLogin | chatbot.py:95-112 | at most a login and a create are sent, in that order; a create is sent only after a truthy uid, with that uid and the record built from the extracted fields, and only when it can be marshalled; a success notice implies both were sent; any falsy uid (None, False, 0, ...) shows the authentication error and nothing more is sent |
| LeadChat.MissingFieldNoLead | chatbot.py:95-112 | when the extracted name, email, phone or requirements is missing or null, a successful login is followed by no create and the connection error is shown |
| LeadChat.ChatSession.constructor | chatbot.py:25-27 | the transcript starts empty and `lead_info` starts at its initial value |
| LeadChat.ChatSession.HandleInput | chatbot.py:37-116 | an empty input changes nothing; otherwise the user and the assistant messages are appended; the context covers the transcript up to the user message; the lead path runs exactly when the reply contains `[CREATE_LEAD]`, and its requests, notice and `lead_info` are those of `SubmitLead` |
| LeadChat.ChatSession.SubmitExtracted | chatbot.py:85-116 | the sentinel path's requests, notice and `lead_info` are those of `SubmitLead`; the transcript is untouched |

## Left out

- Logging, the `demo_usage` function and the `__main__` block of odoo_api_demo.py: they print or exercise the client and decide nothing.
- The `jsonrpc: "2.0"` and `method: "call"` envelope constants and the `id` member are not part of the modelled request. The `id` of an execute call is `int(time.time())`, and a clock is not modelled.
- The JSON encoding of payloads: a `JsonRpcPost` request carries the envelope's parameters as values.
- `OdooSpec.JsonResult`: decoding a non-object body is folded into `body = None`. This matches the source, where `'result' in ...` on a list or string either fails or leads to a caught `TypeError`, giving None.
- Floats are not among the modelled Python values.
- Wire.MarshalError: the order of a dict's entries is not modelled. When one dict holds both a None and an out-of-range int, the model always reports the None error, while Python reports whichever comes first in key order. Whether the call is refused is the same either way.
- Proxy construction: `ServerProxy` rejects URLs that are not http(s), which surfaces as a caught exception. The model builds the endpoint strings without that check.
- The Streamlit page: layout, rendering, the API-key gate (`st.stop`), the prompts and the text generator itself. The generator's replies are inputs to `HandleInput`.
- `json.loads` is an input of `HandleInput` mapping the span to a parsed object or an error. A span starts with `{` and ends with `}`, so a successful parse is always a JSON object.
- The success notice's text includes `str(lead_id)`; Python's `str` of a value is not modelled, so the notice carries the id itself.
- The generic `except Exception` around each batch loop: the single-record operations already catch everything, so that handler never changes the outcome.
