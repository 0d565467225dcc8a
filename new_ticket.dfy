/** Creating a ticket from the user interface (helpdesk-ui/src/App.tsx): the
    form's required-field check and the payload it posts (NewTicketForm,
    lines 174-198), and how the reply to that POST becomes the error text
    the form shows (handleNewTicket, lines 944-971). */
module NewTicket {
  import opened Common

  /** The form's fields; all start empty (App.tsx:161-169). */
  datatype Form = Form(
    ticketNo: string,
    date: string,
    subject: string,
    category: string,
    description: string,
    ticketType: string,
    priority: string)

  const EmptyForm := Form("", "", "", "", "", "", "")

  /** The body of the POST to /tickets/ (App.tsx:181-192). */
  datatype Payload = Payload(
    ticketNo: string,
    subject: string,
    status: string,
    supportBy: string,
    date: string,
    rate: int,
    category: string,
    ticketType: string,
    priority: string,
    description: string)

  const MissingFields := "Please fill in all required fields."

  /** The five starred fields; type and date are optional. */
  predicate RequiredFilled(form: Form)
  {
    form.ticketNo != "" && form.subject != "" && form.category != "" &&
    form.priority != "" && form.description != ""
  }

  /** The check and the payload of handleSubmit (App.tsx:176-192). `now`
      stands for `new Date().toISOString()`, used when no date was typed. */
  function BuildPayload(form: Form, now: string): (r: Result<Payload, string>)
    ensures r.Err? <==>
      form.ticketNo == "" || form.subject == "" || form.category == "" ||
      form.priority == "" || form.description == ""
    ensures r.Err? ==> r.error == MissingFields
    ensures r.Ok? ==> r.value.status == "In Progress" && r.value.rate == 0 && r.value.supportBy == "Tech support"
    ensures r.Ok? ==> r.value.date == (if form.date != "" then form.date else now)
    ensures r.Ok? ==>
      r.value.ticketNo == form.ticketNo && r.value.subject == form.subject &&
      r.value.category == form.category && r.value.ticketType == form.ticketType &&
      r.value.priority == form.priority && r.value.description == form.description
  {
    if !RequiredFilled(form) then Err(MissingFields)
    else Ok(Payload(form.ticketNo, form.subject, "In Progress", "Tech support",
                    if form.date != "" then form.date else now, 0,
                    form.category, form.ticketType, form.priority, form.description))
  }

  // ---------------------------------------------------------------------
  // The reply to the POST and the error text (App.tsx:944-971)
  // ---------------------------------------------------------------------

  /** A value in a JSON error body from the server: a message, or a list of
      messages as Django REST framework reports field errors. */
  datatype JsonValue = JStr(s: string) | JList(items: seq<string>)

  /** What `res.json()` gives: an object (its keys in order), an array, some
      other JSON value (null, a number, a string, a boolean), or a failure
      to parse, which handleNewTicket turns into `{}`. */
  datatype Body =
    | JObject(fields: seq<(string, JsonValue)>)
    | JArray(elements: seq<JsonValue>)
    | JScalar
    | Unparsable

  datatype CreateReply =
    | Response(ok: bool, body: Body)
    | NetworkFailure

  const NotAuthenticated := "Not authenticated. Please log in again."
  const CreateFailed := "Failed to create ticket."

  /** A value's JavaScript string form: an array's items joined by ",". */
  function Render(v: JsonValue): string
  {
    match v
    case JStr(s) => s
    case JList(items) => Join(items, ",")
  }

  /** A value's truthiness: a string unless empty, an array always. */
  predicate TruthyValue(v: JsonValue)
  {
    v.JList? || v.s != ""
  }

  function Join(parts: seq<string>, sep: string): string
  {
    if parts == [] then "" else if |parts| == 1 then parts[0] else parts[0] + sep + Join(parts[1..], sep)
  }

  /** `data.detail`: the value under the key "detail", if any. */
  function Detail(fields: seq<(string, JsonValue)>): Option<JsonValue>
  {
    if fields == [] then None
    else if fields[0].0 == "detail" then Some(fields[0].1)
    else Detail(fields[1..])
  }

  function RenderAll(vs: seq<JsonValue>): seq<string>
  {
    if vs == [] then [] else [Render(vs[0])] + RenderAll(vs[1..])
  }

  function Values(fields: seq<(string, JsonValue)>): seq<JsonValue>
  {
    if fields == [] then [] else [fields[0].1] + Values(fields[1..])
  }

  /** `data.detail || Object.values(data).join(' ') || 'Failed to create ticket.'`:
      the value itself is returned, so a `detail` that is a list is returned
      as that list. */
  function ObjectMessage(fields: seq<(string, JsonValue)>): JsonValue
  {
    var detail := Detail(fields);
    if detail.Some? && TruthyValue(detail.value) then detail.value
    else
      var joined := Join(RenderAll(Values(fields)), " ");
      JStr(if joined != "" then joined else CreateFailed)
  }

  /** handleNewTicket: None (JavaScript null) when the ticket was created,
      otherwise the value handed back to the form as its error. */
  function CreateError(token: Option<string>, reply: CreateReply): (r: Option<JsonValue>)
    ensures r.None? <==> Truthy(token) && reply.Response? && reply.ok
    ensures r.Some? ==> TruthyValue(r.value)
    ensures !Truthy(token) ==> r == Some(JStr(NotAuthenticated))
    ensures Truthy(token) && (reply.NetworkFailure? || (reply.Response? && !reply.ok && (reply.body.JScalar? || reply.body.Unparsable?)))
      ==> r == Some(JStr(CreateFailed))
  {
    if !Truthy(token) then Some(JStr(NotAuthenticated))
    else match reply
      case NetworkFailure => Some(JStr(CreateFailed))
      case Response(ok, body) =>
        if ok then None
        else match body
          case JObject(fields) => Some(ObjectMessage(fields))
          case JArray(elements) =>
            var joined := Join(RenderAll(elements), " ");
            Some(JStr(if joined != "" then joined else CreateFailed))
          case JScalar => Some(JStr(CreateFailed))
          case Unparsable => Some(JStr(CreateFailed))
  }

  /** A failed create whose body is an object with no usable message still
      reports the fixed text. */
  lemma EmptyObjectFallsBack(token: Option<string>)
    requires Truthy(token)
    ensures CreateError(token, Response(false, JObject([]))) == Some(JStr(CreateFailed))
    ensures CreateError(token, Response(false, JObject([("detail", JStr(""))]))) == Some(JStr(CreateFailed))
  {
    assert RenderAll(Values([("detail", JStr(""))])) == [""];
  }

  /** A server reply carrying a non-empty `detail` message is shown as is,
      whatever other keys follow. */
  lemma DetailShownFirst(token: Option<string>, fields: seq<(string, JsonValue)>, message: string)
    requires Truthy(token) && message != ""
    requires |fields| > 0 && fields[0] == ("detail", JStr(message))
    ensures CreateError(token, Response(false, JObject(fields))) == Some(JStr(message))
  {
  }

  /** A body without a "detail" key has no `data.detail`. */
  lemma {:induction false} NoDetailKey(fields: seq<(string, JsonValue)>)
    requires forall i :: 0 <= i < |fields| ==> fields[i].0 != "detail"
    ensures Detail(fields) == None
  {
    if fields != [] {
      assert fields[0].0 != "detail";
      NoDetailKey(fields[1..]);
    }
  }

  /** Without a `detail`, the error is the field messages joined by spaces
      (each list of messages joined by commas), or the fixed text when that
      is empty. */
  lemma FieldErrorsWithoutDetail(token: Option<string>, fields: seq<(string, JsonValue)>)
    requires Truthy(token)
    requires forall i :: 0 <= i < |fields| ==> fields[i].0 != "detail"
    ensures var joined := Join(RenderAll(Values(fields)), " ");
      CreateError(token, Response(false, JObject(fields))) == Some(JStr(if joined != "" then joined else CreateFailed))
  {
    NoDetailKey(fields);
  }

  /** One instance: a list of two messages for the subject and one message
      for the priority read "a1,a2 b". */
  lemma FieldErrorsJoined(token: Option<string>, a1: string, a2: string, b: string)
    requires Truthy(token) && a1 != "" && b != ""
    ensures CreateError(token, Response(false, JObject([("subject", JList([a1, a2])), ("priority", JStr(b))])))
      == Some(JStr(a1 + "," + a2 + " " + b))
  {
    var fields := [("subject", JList([a1, a2])), ("priority", JStr(b))];
    assert fields[0].0 != "detail" && fields[1].0 != "detail";
    assert Detail(fields[1..][1..]) == None;
    assert Detail(fields[1..]) == None;
    assert Values(fields[1..][1..]) == [];
    assert Values(fields) == [JList([a1, a2]), JStr(b)];
    assert [a1, a2][1..] == [a2];
    assert Join([a2], ",") == a2;
    assert Render(JList([a1, a2])) == a1 + "," + a2;
    var vs := [JList([a1, a2]), JStr(b)];
    assert vs[1..][1..] == [];
    assert RenderAll(vs[1..][1..]) == [];
    assert RenderAll(vs[1..]) == [b];
    assert RenderAll(vs) == [a1 + "," + a2, b];
    assert [a1 + "," + a2, b][1..] == [b];
    assert Join([b], " ") == b;
  }

  // ---------------------------------------------------------------------
  // The form after a submit (App.tsx:174-198)
  // ---------------------------------------------------------------------

  datatype FormState = FormState(form: Form, formError: string)

  /** What the form's error line shows for an error value: React renders a
      string as it is and an array as its items one after another, with no
      separator. */
  function Shown(v: JsonValue): string
  {
    match v
    case JStr(s) => s
    case JList(items) => Join(items, "")
  }

  /** A submit of `form`: the payload posted (None when the check fails and
      nothing is sent) and the form afterwards. */
  datatype SubmitOutcome = SubmitOutcome(sent: Option<Payload>, after: FormState)

  /** handleSubmit: the form is cleared exactly when the ticket was
      created, and otherwise keeps what was typed and shows the error. */
  function Submit(form: Form, now: string, token: Option<string>, reply: CreateReply): (r: SubmitOutcome)
    ensures r.sent.None? <==> !RequiredFilled(form)
    ensures r.sent.Some? ==> BuildPayload(form, now) == Ok(r.sent.value)
    ensures !RequiredFilled(form) ==> r.after == FormState(form, MissingFields)
    ensures RequiredFilled(form) && CreateError(token, reply).None? ==> r.after == FormState(EmptyForm, "")
    ensures RequiredFilled(form) && CreateError(token, reply).Some? ==>
      r.after == FormState(form, Shown(CreateError(token, reply).value))
  {
    match BuildPayload(form, now)
    case Err(message) => SubmitOutcome(None, FormState(form, message))
    case Ok(payload) =>
      var error := CreateError(token, reply);
      // `if (!error)`: CreateError never hands back a falsy value
      if error.None? then SubmitOutcome(Some(payload), FormState(EmptyForm, ""))
      else SubmitOutcome(Some(payload), FormState(form, Shown(error.value)))
  }

  /** A `detail` that is a list of messages is shown as those messages run
      together, not joined by commas as a field error list is. */
  lemma ListDetailShownRunTogether(form: Form, now: string, token: Option<string>, a: string, b: string)
    requires RequiredFilled(form) && Truthy(token)
    ensures Submit(form, now, token, Response(false, JObject([("detail", JList([a, b]))]))).after
      == FormState(form, a + b)
  {
    assert [a, b][1..] == [b];
    assert Join([a, b], "") == a + "" + b;
  }

  /** A filled form is cleared exactly when the server accepted it. */
  lemma ClearedIffCreated(form: Form, now: string, token: Option<string>, reply: CreateReply)
    requires RequiredFilled(form)
    ensures Submit(form, now, token, reply).after.form == EmptyForm <==>
      (Truthy(token) && reply.Response? && reply.ok)
  {
  }
}
