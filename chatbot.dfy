/** The lead-capture logic of chatbot.py: the transcript and the context
    string built from it, the `[CREATE_LEAD]` sentinel, the greedy brace
    span that is parsed as JSON, the `crm.lead` record built from the parsed
    fields, and the create call that only follows a successful login.
    The generator's replies are inputs; JSON parsing is an oracle on the span;
    the XML-RPC server is a `Wire.Transport`. */
module LeadChat {
  import opened PyValue
  import opened Wire

  datatype Message = Message(role: string, content: string)

  /** Python code that may raise: its value, or the exception's text. */
  datatype Attempt<+T> = Done(value: T) | Failed(error: string)

  /** A reply of the text generator: `response.text`, or the exception raised. */
  datatype GenReply = Generated(text: string) | GenRaised(error: string)

  /** The sidebar's ERP credentials. */
  datatype OdooLogin = OdooLogin(db: string, username: string, password: string)

  /** What the page shows besides the transcript after one input. */
  datatype Notice =
    | Silent                        // no sentinel in the reply: nothing else happens
    | LeadCreated(leadId: Value)    // "Lead created successfully in Odoo! ..."
    | AuthFailed                    // "Odoo authentication failed. Please check credentials."
    | OdooError(detail: string)     // "Error connecting to Odoo: " + detail
    | ExtractFailed                 // "Failed to extract information."
    | ExtractError(detail: string)  // "Error extracting information: " + detail

  const OdooUrl: string := "http://localhost:8069"
  const CreateLeadMarker: string := "[CREATE_LEAD]"
  const GenerationErrorPrefix: string := "Error generating response: "

  // ---------------------------------------------------------------------
  // The transcript as context

  function Render(m: Message): string
  {
    m.role + ": " + m.content
  }

  /** `"\n".join(f"{m['role']}: {m['content']}" for m in messages)`. */
  function Context(messages: seq<Message>): (c: string)
    ensures c == "" <==> messages == []
    ensures messages != [] ==> Render(messages[0]) <= c
  {
    if messages == [] then ""
    else if |messages| == 1 then Render(messages[0])
    else Render(messages[0]) + "\n" + Context(messages[1..])
  }

  /** Appending a message to a non-empty transcript appends one line to
      its context. */
  lemma {:induction false} ContextAppend(messages: seq<Message>, m: Message)
    requires messages != []
    ensures Context(messages + [m]) == Context(messages) + "\n" + Render(m)
    decreases |messages|
  {
    if |messages| > 1 {
      assert (messages + [m])[1..] == messages[1..] + [m];
      ContextAppend(messages[1..], m);
    }
  }

  /** The first occurrence of `c` in `s`. */
  function FirstIndexOf(s: string, c: char): (r: Option<int>)
    ensures r.Some? ==> 0 <= r.value < |s| && s[r.value] == c
    ensures r.Some? ==> forall k | 0 <= k < r.value :: s[k] != c
    ensures r.None? ==> forall k | 0 <= k < |s| :: s[k] != c
    decreases |s|
  {
    if s == [] then None
    else if s[0] == c then Some(0)
    else match FirstIndexOf(s[1..], c)
      case None => None
      case Some(i) => Some(i + 1)
  }

  /** The last occurrence of `c` in `s`. */
  function LastIndexOf(s: string, c: char): (r: Option<int>)
    ensures r.Some? ==> 0 <= r.value < |s| && s[r.value] == c
    ensures r.Some? ==> forall k | r.value < k < |s| :: s[k] != c
    ensures r.None? ==> forall k | 0 <= k < |s| :: s[k] != c
    decreases |s|
  {
    if s == [] then None
    else if s[|s| - 1] == c then Some(|s| - 1)
    else LastIndexOf(s[..|s| - 1], c)
  }

  /** `s.split("\n")`. */
  function SplitLines(s: string): (lines: seq<string>)
    ensures lines != []
    decreases |s|
  {
    match FirstIndexOf(s, '\n')
    case None => [s]
    case Some(i) => [s[..i]] + SplitLines(s[i + 1..])
  }

  lemma SplitAfterLine(a: string, b: string)
    requires '\n' !in a
    ensures SplitLines(a + "\n" + b) == [a] + SplitLines(b)
  {
    var s := a + "\n" + b;
    assert s[|a|] == '\n';
    assert forall k | 0 <= k < |a| :: s[k] == a[k];
    assert s[..|a|] == a && s[|a| + 1..] == b;
  }

  /** When no role or content holds a newline, splitting the context at
      newlines gives back the rendered messages, one per line, in order. */
  lemma {:induction false} ContextLines(messages: seq<Message>)
    requires messages != []
    requires forall i | 0 <= i < |messages| :: '\n' !in Render(messages[i])
    ensures |SplitLines(Context(messages))| == |messages|
    ensures forall i | 0 <= i < |messages| :: SplitLines(Context(messages))[i] == Render(messages[i])
    decreases |messages|
  {
    if |messages| == 1 {
      assert FirstIndexOf(Render(messages[0]), '\n').None?;
    } else {
      ContextLines(messages[1..]);
      SplitAfterLine(Render(messages[0]), Context(messages[1..]));
    }
  }

  // ---------------------------------------------------------------------
  // The sentinel

  predicate OccursAt(s: string, pattern: string, i: int)
  {
    0 <= i && i + |pattern| <= |s| && s[i..i + |pattern|] == pattern
  }

  /** `pattern in s` for strings: a substring test. */
  function Contains(s: string, pattern: string): (r: bool)
    ensures r <==> exists i :: OccursAt(s, pattern, i)
    decreases |s|
  {
    if |pattern| > |s| then false
    else if s[..|pattern|] == pattern then
      assert OccursAt(s, pattern, 0);
      true
    else
      var r := Contains(s[1..], pattern);
      assert forall i | 0 <= i :: OccursAt(s[1..], pattern, i) <==> OccursAt(s, pattern, i + 1);
      assert !OccursAt(s, pattern, 0);
      assert forall i :: OccursAt(s, pattern, i) ==> i >= 1 && OccursAt(s[1..], pattern, i - 1);
      r
  }

  // ---------------------------------------------------------------------
  // The JSON span: re.search(r'\{.*\}', text, re.DOTALL)

  /** `\{.*\}` with DOTALL matches exactly the substrings `text[i..j + 1]`
      that open with `{` and close with a later `}`; newlines inside are fine. */
  predicate BraceMatch(text: string, i: int, j: int)
  {
    0 <= i < j < |text| && text[i] == '{' && text[j] == '}'
  }

  /** The match `re.search` reports: the leftmost start, and at that start
      the longest match (the `*` is greedy). */
  ghost predicate SearchedMatch(text: string, i: int, j: int)
  {
    && BraceMatch(text, i, j)
    && (forall i', j' :: BraceMatch(text, i', j') ==> i <= i')
    && (forall j' :: BraceMatch(text, i, j') ==> j' <= j)
  }

  /** `match.group(0)` of the search, or None when nothing matches. */
  function BraceSpan(text: string): (r: Option<string>)
    ensures r.None? <==> forall i, j :: !BraceMatch(text, i, j)
    ensures r.Some? ==> exists i, j :: SearchedMatch(text, i, j) && r.value == text[i..j + 1]
  {
    match FirstIndexOf(text, '{')
    case None => None
    case Some(i) =>
      match LastIndexOf(text, '}')
      case None => None
      case Some(j) =>
        if i < j then
          assert SearchedMatch(text, i, j);
          Some(text[i..j + 1])
        else None
  }

  /** The span is a piece of the text from the first `{` to the last `}`. */
  lemma BraceSpanShape(text: string)
    requires BraceSpan(text).Some?
    ensures var span := BraceSpan(text).value;
            && |span| >= 2 && span[0] == '{' && span[|span| - 1] == '}'
            && exists i :: OccursAt(text, span, i) && '{' !in text[..i] && '}' !in text[i + |span|..]
  {
    var span := BraceSpan(text).value;
    var i, j :| SearchedMatch(text, i, j) && span == text[i..j + 1];
    assert OccursAt(text, span, i);
    forall k | 0 <= k < i ensures text[..i][k] != '{' {
      assert !BraceMatch(text, k, j);
    }
    forall k | j + 1 <= k < |text| ensures text[k] != '}' {
      assert !BraceMatch(text, i, k);
    }
  }

  // ---------------------------------------------------------------------
  // The crm.lead record

  /** The `TypeError` text of `v + ' Lead'` when `v` is not a string. */
  function ConcatError(v: Value): string
  {
    if v.List? then "can only concatenate list (not \"str\") to list"
    else "unsupported operand type(s) for +: '" + TypeName(v) + "' and 'str'"
  }

  /** The values sent to `crm.lead.create`. The lead's name is the extracted
      name (or "New Lead" when the key is missing) followed by " Lead"; a name
      that is present but not a string makes the `+` raise. */
  function LeadRecord(extracted: map<string, Value>): (r: Attempt<map<string, Value>>)
    ensures r.Done? <==> "name" !in extracted || extracted["name"].Str?
    ensures r.Failed? ==> r.error == ConcatError(extracted["name"])
    ensures r.Done? ==> r.value.Keys == {"name", "contact_name", "email_from", "phone", "description"}
    ensures r.Done? ==> r.value["name"] == Str((if "name" in extracted then extracted["name"].s else "New Lead") + " Lead")
    ensures r.Done? ==> && r.value["contact_name"] == Get(extracted, "name")
                        && r.value["email_from"] == Get(extracted, "email")
                        && r.value["phone"] == Get(extracted, "phone")
                        && r.value["description"] == Get(extracted, "requirements")
  {
    var name := if "name" in extracted then extracted["name"] else Str("New Lead");
    match name
    case Str(n) =>
      Done(map["name" := Str(n + " Lead"),
               "contact_name" := Get(extracted, "name"),
               "email_from" := Get(extracted, "email"),
               "phone" := Get(extracted, "phone"),
               "description" := Get(extracted, "requirements")])
    case _ => Failed(ConcatError(name))
  }

  // ---------------------------------------------------------------------
  // One input

  /** The assistant message appended for a generator reply. */
  function AssistantText(reply: GenReply): (t: string)
    ensures reply.Generated? ==> t == reply.text
    ensures reply.GenRaised? ==> t == GenerationErrorPrefix + reply.error
  {
    match reply
    case Generated(text) => text
    case GenRaised(e) => GenerationErrorPrefix + e
  }

  /** `lead_info` before any lead was extracted. */
  function InitialLeadInfo(): (m: map<string, Value>)
    ensures m.Keys == {"name", "email", "phone", "requirements"}
    ensures forall k | k in m :: m[k] == Nil
  {
    map["name" := Nil, "email" := Nil, "phone" := Nil, "requirements" := Nil]
  }

  /** What the extraction path yields: the new `lead_info` (if it is
      replaced), the requests it sends after the history `sent`, and the
      notice it shows. */
  datatype Submission = Submission(leadInfo: Option<map<string, Value>>, requests: seq<Request>, notice: Notice)

  function LoginRequest(login: OdooLogin): Request
  {
    AuthenticateCall(OdooUrl + "/xmlrpc/2/common", login.db, login.username, login.password)
  }

  function CreateRequest(login: OdooLogin, uid: Value, record: map<string, Value>): Request
  {
    ExecuteKwCall(OdooUrl + "/xmlrpc/2/object", login.db, uid, login.password, "crm.lead", "create", [Dict(record)])
  }

  /** The path taken once the sentinel was seen. */
  function SubmitLead(extraction: GenReply, parse: string -> Attempt<map<string, Value>>,
                      login: OdooLogin, sent: seq<Request>, o: Oracles): (sub: Submission)
    ensures sub.requests == [] || sub.requests[0] == LoginRequest(login)
    ensures sub.notice.LeadCreated? ==> |sub.requests| == 2
    ensures sub.notice.ExtractFailed? || sub.notice.ExtractError? ==> sub.requests == [] && sub.leadInfo.None?
  {
    match extraction
    case GenRaised(e) => Submission(None, [], ExtractError(e))
    case Generated(text) =>
      match BraceSpan(text)
      case None => Submission(None, [], ExtractFailed)
      case Some(span) =>
        match parse(span)
        case Failed(e) => Submission(None, [], ExtractError(e))
        case Done(extracted) =>
          var auth := LoginRequest(login);
          match o.answerXml(sent + [auth])
          case XmlRaised(e) => Submission(Some(extracted), [auth], OdooError(e))
          case XmlReturned(uid) =>
            if !Truthy(uid) then Submission(Some(extracted), [auth], AuthFailed)
            else
              match LeadRecord(extracted)
              case Failed(e) => Submission(Some(extracted), [auth], OdooError(e))
              case Done(record) =>
                var create := CreateRequest(login, uid, record);
                match RequestMarshalError(create)
                case Some(e) => Submission(Some(extracted), [auth], OdooError(e))
                case None =>
                  match o.answerXml(sent + [auth, create])
                  case XmlRaised(e) => Submission(Some(extracted), [auth, create], OdooError(e))
                  case XmlReturned(leadId) => Submission(Some(extracted), [auth, create], LeadCreated(leadId))
  }

  /** With no brace span in the extraction reply the error is shown and
      the ERP is never contacted. */
  lemma NoSpanNoRequest(text: string, parse: string -> Attempt<map<string, Value>>,
                        login: OdooLogin, sent: seq<Request>, o: Oracles)
    requires forall i, j :: !BraceMatch(text, i, j)
    ensures SubmitLead(Generated(text), parse, login, sent, o) == Submission(None, [], ExtractFailed)
  {
  }

  /** `lead_info` is replaced exactly when a span was found and parsed, and
      then by the parsed object. */
  lemma LeadInfoOnlyFromParse(extraction: GenReply, parse: string -> Attempt<map<string, Value>>,
                              login: OdooLogin, sent: seq<Request>, o: Oracles)
    ensures var sub := SubmitLead(extraction, parse, login, sent, o);
            && (sub.leadInfo.Some? <==> extraction.Generated? && BraceSpan(extraction.text).Some?
                                         && parse(BraceSpan(extraction.text).value).Done?)
            && (sub.leadInfo.Some? ==> sub.leadInfo.value == parse(BraceSpan(extraction.text).value).value)
  {
  }

  /** At most one login and one create are sent, in that order; the create
      is sent only after the login returned a truthy uid, carries that uid
      and the record built from the extracted fields, and can be marshalled;
      a falsy uid (None, False, 0, ...) shows the authentication error. */
  lemma CreateOnlyAfterLogin(extraction: GenReply, parse: string -> Attempt<map<string, Value>>,
                             login: OdooLogin, sent: seq<Request>, o: Oracles)
    ensures var sub := SubmitLead(extraction, parse, login, sent, o);
            && |sub.requests| <= 2
            && (sub.requests != [] ==> sub.requests[0] == LoginRequest(login) && sub.leadInfo.Some?)
            && (|sub.requests| == 2 ==>
                  var reply := o.answerXml(sent + [LoginRequest(login)]);
                  && reply.XmlReturned? && Truthy(reply.value)
                  && LeadRecord(sub.leadInfo.value).Done?
                  && sub.requests[1] == CreateRequest(login, reply.value, LeadRecord(sub.leadInfo.value).value)
                  && RequestMarshalError(sub.requests[1]).None?)
            && (sub.notice.LeadCreated? ==> |sub.requests| == 2)
            && (var reply := o.answerXml(sent + [LoginRequest(login)]);
                sub.requests != [] && reply.XmlReturned? && !Truthy(reply.value) ==>
                  sub.notice == AuthFailed && |sub.requests| == 1)
  {
  }

  /** XML-RPC cannot carry None: when the extracted name, email, phone or
      requirements is missing or null, no create follows a successful login
      and the connection error is shown instead of a new lead. */
  lemma MissingFieldNoLead(text: string, parse: string -> Attempt<map<string, Value>>,
                           login: OdooLogin, sent: seq<Request>, o: Oracles, field: string)
    requires BraceSpan(text).Some? && parse(BraceSpan(text).value).Done?
    requires field == "name" || field == "email" || field == "phone" || field == "requirements"
    requires Get(parse(BraceSpan(text).value).value, field) == Nil
    requires o.answerXml(sent + [LoginRequest(login)]).XmlReturned?
    requires Truthy(o.answerXml(sent + [LoginRequest(login)]).value)
    ensures var sub := SubmitLead(Generated(text), parse, login, sent, o);
            sub.requests == [LoginRequest(login)] && sub.notice.OdooError?
  {
    var extracted := parse(BraceSpan(text).value).value;
    var uid := o.answerXml(sent + [LoginRequest(login)]).value;
    var record := LeadRecord(extracted);
    if record.Done? {
      var key := if field == "name" then "contact_name"
                 else if field == "email" then "email_from"
                 else if field == "phone" then "phone"
                 else "description";
      assert record.value[key] == Nil;
      assert !Marshallable(Dict(record.value));
      assert !Marshallable([Dict(record.value)][0]);
      assert RequestMarshalError(CreateRequest(login, uid, record.value)).Some?;
    }
  }

  /** The session state of the page: the transcript and `lead_info`. */
  class ChatSession {
    var messages: seq<Message>
    var leadInfo: map<string, Value>

    constructor ()
      ensures messages == [] && leadInfo == InitialLeadInfo()
    {
      messages := [];
      leadInfo := InitialLeadInfo();
    }

    /** One submitted chat input. `reply` and `extraction` are the
        generator's answers to the chat prompt and to the extraction prompt,
        `parse` is `json.loads`; the returned `context` is the conversation
        text both prompts embed. An empty input does nothing. */
    method HandleInput(userInput: string, reply: GenReply, extraction: GenReply,
                       parse: string -> Attempt<map<string, Value>>, login: OdooLogin, net: Transport)
      returns (context: string, notice: Notice)
      modifies this, net
      ensures userInput == "" ==>
                messages == old(messages) && leadInfo == old(leadInfo) && net.sent == old(net.sent) && notice == Silent
      ensures userInput != "" ==>
                messages == old(messages) + [Message("user", userInput), Message("assistant", AssistantText(reply))]
      ensures userInput != "" ==> context == Context(old(messages) + [Message("user", userInput)])
      ensures userInput != "" && !Contains(AssistantText(reply), CreateLeadMarker) ==>
                leadInfo == old(leadInfo) && net.sent == old(net.sent) && notice == Silent
      ensures userInput != "" && Contains(AssistantText(reply), CreateLeadMarker) ==>
                var sub := SubmitLead(extraction, parse, login, old(net.sent), net.oracles);
                && net.sent == old(net.sent) + sub.requests
                && notice == sub.notice
                && leadInfo == (if sub.leadInfo.Some? then sub.leadInfo.value else old(leadInfo))
    {
      context, notice := "", Silent;
      if userInput == "" {
        return;
      }
      messages := messages + [Message("user", userInput)];
      context := Context(messages);
      var botResponse: string;
      match reply {
        case Generated(text) => botResponse := text;
        case GenRaised(e) => botResponse := GenerationErrorPrefix + e;
      }
      messages := messages + [Message("assistant", botResponse)];
      if Contains(botResponse, CreateLeadMarker) {
        notice := SubmitExtracted(extraction, parse, login, net);
      }
    }

    /** The path taken once the reply carries the sentinel: extract, parse,
        store `lead_info`, log in and create the lead. */
    method SubmitExtracted(extraction: GenReply, parse: string -> Attempt<map<string, Value>>,
                           login: OdooLogin, net: Transport)
      returns (notice: Notice)
      modifies this, net
      ensures messages == old(messages)
      ensures var sub := SubmitLead(extraction, parse, login, old(net.sent), net.oracles);
              && net.sent == old(net.sent) + sub.requests
              && notice == sub.notice
              && leadInfo == (if sub.leadInfo.Some? then sub.leadInfo.value else old(leadInfo))
    {
      notice := Silent;
      match extraction {
        case GenRaised(e) =>
          notice := ExtractError(e);
        case Generated(text) =>
          var span := BraceSpan(text);
          if span.None? {
            notice := ExtractFailed;
            return;
          }
          match parse(span.value) {
            case Failed(e) =>
              notice := ExtractError(e);
            case Done(extracted) =>
              leadInfo := extracted;
              var uidReply := net.SendXml(LoginRequest(login));
              match uidReply {
                case XmlRaised(e) =>
                  notice := OdooError(e);
                case XmlReturned(uid) =>
                  if !Truthy(uid) {
                    notice := AuthFailed;
                    return;
                  }
                  var record := LeadRecord(extracted);
                  match record {
                    case Failed(e) =>
                      notice := OdooError(e);
                    case Done(values) =>
                      var created := net.SendXml(CreateRequest(login, uid, values));
                      match created {
                        case XmlRaised(e) => notice := OdooError(e);
                        case XmlReturned(leadId) => notice := LeadCreated(leadId);
                      }
                  }
              }
          }
      }
    }
  }
}
