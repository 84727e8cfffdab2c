/** The data-service wrappers: the reshaping each one applies to what it
    sends and to what `authenticatedFetch` gives back. Backend records are
    taken in the shape the backend documents. */
module Api {
  import opened Base
  import opened Text
  import opened Js
  import opened Http

  // ---------------------------------------------------------------- chat records

  /** A chat message as the backend returns it. */
  datatype BackendMessage = BackendMessage(
    id: int, text: string, senderType: string, timestamp: string, editable: bool,
    status: Option<string>, isImportant: Option<bool>, caseReference: Option<string>)

  /** A chat message as the pages use it. */
  datatype ChatMessage = ChatMessage(
    id: string, text: string, sender: string, timestamp: string, editable: bool,
    status: Option<string>, isImportant: Option<bool>, caseReference: Option<string>)

  /** A chat session as the backend returns it. */
  datatype BackendSession = BackendSession(
    id: int, title: string, lastMessage: Option<string>, createdAt: string, updatedAt: string,
    isPinned: Option<bool>, isArchived: Option<bool>, category: Option<string>)

  /** A chat session as the pages use it. */
  datatype ChatSession = ChatSession(
    id: string, title: string, lastMessage: string, timestamp: string,
    isPinned: Option<bool>, isArchived: Option<bool>, category: Option<string>)

  const NoMessagesYet := "No messages yet"

  /** The message mapping shared by `getChatHistory`, `sendMessage` and
      `updateChatMessage`: snake-case fields renamed, the id rendered in decimal. */
  function ToChatMessage(m: BackendMessage): ChatMessage {
    ChatMessage(IntToString(m.id), m.text, m.senderType, m.timestamp, m.editable, m.status, m.isImportant, m.caseReference)
  }

  /** The mapped id reads back, under `Number` and under `parseInt`, as the backend's id. */
  lemma ToChatMessageId(m: BackendMessage)
    ensures NumberOf(ToChatMessage(m).id) == Some(m.id) && ParseInt(ToChatMessage(m).id) == Some(m.id)
  {
    NumberOfIntToString(m.id);
    ParseIntOfIntToString(m.id);
  }

  /** `getChatHistory`: every message mapped, in the order received. */
  function GetChatHistory(ms: seq<BackendMessage>): (r: seq<ChatMessage>)
    ensures |r| == |ms|
    ensures forall i | 0 <= i < |ms| :: r[i] == ToChatMessage(ms[i])
    decreases |ms|
  {
    if ms == [] then [] else [ToChatMessage(ms[0])] + GetChatHistory(ms[1..])
  }

  /** Distinct backend ids stay distinct after mapping. */
  lemma HistoryIdsDistinct(ms: seq<BackendMessage>)
    requires forall i, j | 0 <= i < j < |ms| :: ms[i].id != ms[j].id
    ensures forall i, j | 0 <= i < j < |ms| :: GetChatHistory(ms)[i].id != GetChatHistory(ms)[j].id
  {
  }

  /** `createChatSession`: a new session reads "No messages yet" and is
      stamped with its creation time. */
  function CreatedSession(s: BackendSession): (r: ChatSession)
    ensures r.lastMessage == NoMessagesYet && r.timestamp == s.createdAt
    ensures r.title == s.title && r.isPinned == s.isPinned && r.isArchived == s.isArchived && r.category == s.category
  {
    ChatSession(IntToString(s.id), s.title, NoMessagesYet, s.createdAt, s.isPinned, s.isArchived, s.category)
  }

  /** `updateChatSession`: the preview is `lastMessage || "No messages yet"` and
      the timestamp is the update time. */
  function UpdatedSession(s: BackendSession): (r: ChatSession)
    ensures r.lastMessage != ""
    ensures s.lastMessage.Some? && s.lastMessage.value != "" ==> r.lastMessage == s.lastMessage.value
    ensures (s.lastMessage.None? || s.lastMessage.value == "") ==> r.lastMessage == NoMessagesYet
    ensures r.timestamp == s.updatedAt && r.title == s.title && r.isPinned == s.isPinned
    ensures r.isArchived == s.isArchived && r.category == s.category
  {
    var preview := if s.lastMessage.Some? && s.lastMessage.value != "" then s.lastMessage.value else NoMessagesYet;
    ChatSession(IntToString(s.id), s.title, preview, s.updatedAt, s.isPinned, s.isArchived, s.category)
  }

  /** The JSON body of `sendMessage`: `Number.parseInt(sessionId)`, which JSON
      writes as `null` when it is `NaN`, and the question text. */
  function SendMessageBody(sessionId: string, question: string): (r: JsValue)
    ensures r.Obj? && r.props.Keys == {"session_id", "query_text"}
    ensures r.props["query_text"] == Str(question)
    ensures r.props["session_id"] == Null <==> ParseInt(sessionId).None?
  {
    var id := match ParseInt(sessionId) case Some(n) => Num(n) case None => Null;
    Obj(map["session_id" := id, "query_text" := Str(question)])
  }

  /** A session id the client got from the backend is sent back as the same number. */
  lemma SendMessageSessionRoundTrip(s: BackendSession, question: string)
    ensures SendMessageBody(CreatedSession(s).id, question).props["session_id"] == Num(s.id)
    ensures SendMessageBody(UpdatedSession(s).id, question).props["session_id"] == Num(s.id)
  {
    SessionIdRoundTrip(s);
  }

  /** Both session mappers render the id so that `parseInt` reads back the backend's id. */
  lemma SessionIdRoundTrip(s: BackendSession)
    ensures ParseInt(CreatedSession(s).id) == Some(s.id) && ParseInt(UpdatedSession(s).id) == Some(s.id)
  {
    ParseIntOfIntToString(s.id);
  }

  // ---------------------------------------------------------------- query strings

  function BoolString(b: bool): string { if b then "true" else "false" }

  /** A string parameter is appended only when it is truthy (non-empty). */
  function IfText(o: Option<string>): (r: Option<string>)
    ensures r.Some? <==> o.Some? && o.value != ""
    ensures r.Some? ==> r == o
  {
    if o.Some? && o.value != "" then o else None
  }

  /** A number parameter is appended only when it is truthy (non-zero), in decimal. */
  function IfNumber(o: Option<int>): (r: Option<string>)
    ensures r.Some? <==> o.Some? && o.value != 0
  {
    if o.Some? && o.value != 0 then Some(IntToString(o.value)) else None
  }

  /** An appended number reads back as the number. */
  lemma IfNumberReadsBack(o: Option<int>)
    ensures IfNumber(o).Some? ==> NumberOf(IfNumber(o).value) == o
  {
    if o.Some? && o.value != 0 {
      NumberOfIntToString(o.value);
    }
  }

  /** A boolean parameter compared with `undefined`: appended when defined, `false` included. */
  function IfDefined(o: Option<bool>): (r: Option<string>)
    ensures r.Some? <==> o.Some?
    ensures r.Some? ==> r.value == BoolString(o.value)
  {
    if o.Some? then Some(BoolString(o.value)) else None
  }

  /** `updateChatMessage`'s query: each field appended when it is not `undefined`. */
  const MessageParamNames: seq<string> := ["is_important", "status"]

  function MessageParamValues(isImportant: Option<bool>, status: Option<string>): seq<Option<string>> {
    [IfDefined(isImportant), status]
  }

  method UpdateMessageQuery(isImportant: Option<bool>, status: Option<string>)
    returns (params: seq<(string, string)>)
    ensures params == Present(MessageParamNames, MessageParamValues(isImportant, status))
  {
    ghost var values := MessageParamValues(isImportant, status);
    params := [];
    params := AppendIf(params, "is_important", IfDefined(isImportant), MessageParamNames, values, 0);
    params := AppendIf(params, "status", status, MessageParamNames, values, 1);
  }

  /** Un-starring sends `is_important=false`, and an empty status is still sent. */
  lemma MessageQueryFalsyKept()
    ensures Present(MessageParamNames, MessageParamValues(Some(false), Some("")))
      == [("is_important", "false"), ("status", "")]
  {
    var values := MessageParamValues(Some(false), Some(""));
    assert values == [Some("false"), Some("")];
    assert PresentUpTo(MessageParamNames, values, 1) == [("is_important", "false")];
  }

  /** A flag-only update sends exactly one parameter, the flag. */
  lemma MessageQueryFlagOnly(b: bool)
    ensures Present(MessageParamNames, MessageParamValues(Some(b), None)) == [("is_important", BoolString(b))]
  {
    var values := MessageParamValues(Some(b), None);
    assert PresentUpTo(MessageParamNames, values, 1) == [("is_important", BoolString(b))];
  }

  /** `getTasks`' filter; every field may be absent. */
  datatype TaskFilter = TaskFilter(
    status: Option<string>, caseId: Option<int>, isPrivate: Option<bool>,
    startDate: Option<string>, endDate: Option<string>, skip: Option<int>, limit: Option<int>)

  const TaskParamNames: seq<string> :=
    ["status", "case_id", "is_private", "start_date", "end_date", "skip", "limit"]

  /** Which task parameters are sent, and as what: falsy values are dropped,
      except `is_private`, which is compared with `undefined`. */
  function TaskParamValues(f: TaskFilter): (r: seq<Option<string>>)
    ensures |r| == |TaskParamNames|
  {
    [IfText(f.status), IfNumber(f.caseId), IfDefined(f.isPrivate),
     IfText(f.startDate), IfText(f.endDate), IfNumber(f.skip), IfNumber(f.limit)]
  }

  /** `getTasks`' query string, appended parameter by parameter. */
  method TaskQuery(f: TaskFilter) returns (params: seq<(string, string)>)
    ensures params == Present(TaskParamNames, TaskParamValues(f))
  {
    ghost var values := TaskParamValues(f);
    params := [];
    params := AppendIf(params, "status", IfText(f.status), TaskParamNames, values, 0);
    params := AppendIf(params, "case_id", IfNumber(f.caseId), TaskParamNames, values, 1);
    params := AppendIf(params, "is_private", IfDefined(f.isPrivate), TaskParamNames, values, 2);
    params := AppendIf(params, "start_date", IfText(f.startDate), TaskParamNames, values, 3);
    params := AppendIf(params, "end_date", IfText(f.endDate), TaskParamNames, values, 4);
    params := AppendIf(params, "skip", IfNumber(f.skip), TaskParamNames, values, 5);
    params := AppendIf(params, "limit", IfNumber(f.limit), TaskParamNames, values, 6);
  }

  /** Every task parameter is sent with its value exactly when that value counts,
      at most once, and in the fixed order status, case_id, is_private,
      start_date, end_date, skip, limit. */
  lemma TaskQueryShape(f: TaskFilter)
    ensures forall i | 0 <= i < |Present(TaskParamNames, TaskParamValues(f))| ::
      Present(TaskParamNames, TaskParamValues(f))[i].0 in TaskParamNames
    ensures forall k | 0 <= k < |TaskParamNames| ::
      Find(Present(TaskParamNames, TaskParamValues(f)), TaskParamNames[k]) == TaskParamValues(f)[k]
    ensures forall i, j | 0 <= i < j < |Present(TaskParamNames, TaskParamValues(f))| ::
      Index(TaskParamNames, Present(TaskParamNames, TaskParamValues(f))[i].0)
        < Index(TaskParamNames, Present(TaskParamNames, TaskParamValues(f))[j].0)
  {
    var values := TaskParamValues(f);
    TaskParamNamesDistinct();
    forall k | 0 <= k < |TaskParamNames|
      ensures Find(Present(TaskParamNames, values), TaskParamNames[k]) == values[k]
    {
      PresentFind(TaskParamNames, values, k);
    }
    PresentOrder(TaskParamNames, values);
  }

  lemma TaskParamNamesDistinct()
    ensures Distinct(TaskParamNames)
  {
  }

  /** `is_private=false` is sent, while a zero `skip` is not. */
  lemma TaskQueryFalsy(f: TaskFilter)
    requires f.isPrivate == Some(false) && f.skip == Some(0)
    ensures Find(Present(TaskParamNames, TaskParamValues(f)), "is_private") == Some("false")
    ensures Find(Present(TaskParamNames, TaskParamValues(f)), "skip") == None
  {
    TaskParamNamesDistinct();
    PresentFind(TaskParamNames, TaskParamValues(f), 2);
    PresentFind(TaskParamNames, TaskParamValues(f), 5);
  }

  /** `getDocuments`' filter. */
  datatype DocumentFilter = DocumentFilter(
    caseId: Option<int>, appointmentId: Option<int>, search: Option<string>, skip: Option<int>, limit: Option<int>)

  const DocumentParamNames: seq<string> := ["case_id", "appointment_id", "search", "skip", "limit"]

  /** Every document parameter is sent only when truthy. */
  function DocumentParamValues(f: DocumentFilter): (r: seq<Option<string>>)
    ensures |r| == |DocumentParamNames|
    ensures forall k | 0 <= k < |r| :: r[k].Some? ==> r[k].value != ""
  {
    IntToStringNonEmpty(f.caseId);
    IntToStringNonEmpty(f.appointmentId);
    IntToStringNonEmpty(f.skip);
    IntToStringNonEmpty(f.limit);
    [IfNumber(f.caseId), IfNumber(f.appointmentId), IfText(f.search), IfNumber(f.skip), IfNumber(f.limit)]
  }

  lemma IntToStringNonEmpty(o: Option<int>)
    ensures IfNumber(o).Some? ==> IfNumber(o).value != ""
  {
  }

  /** `getDocuments`' query string. */
  method DocumentQuery(f: DocumentFilter) returns (params: seq<(string, string)>)
    ensures params == Present(DocumentParamNames, DocumentParamValues(f))
  {
    ghost var values := DocumentParamValues(f);
    params := [];
    params := AppendIf(params, "case_id", IfNumber(f.caseId), DocumentParamNames, values, 0);
    params := AppendIf(params, "appointment_id", IfNumber(f.appointmentId), DocumentParamNames, values, 1);
    params := AppendIf(params, "search", IfText(f.search), DocumentParamNames, values, 2);
    params := AppendIf(params, "skip", IfNumber(f.skip), DocumentParamNames, values, 3);
    params := AppendIf(params, "limit", IfNumber(f.limit), DocumentParamNames, values, 4);
  }

  // ---------------------------------------------------------------- upload

  /** `uploadDocument`'s payload; the file is an opaque handle. */
  datatype DocumentUpload = DocumentUpload(
    file: nat, title: string, description: Option<string>,
    caseId: Option<int>, appointmentId: Option<int>, clientId: Option<int>)

  const UploadFieldNames: seq<string> := ["file", "title", "description", "case_id", "appointment_id", "client_id"]

  function AsText(o: Option<string>): Option<FormValue> {
    match o case Some(s) => Some(TextPart(s)) case None => None
  }

  /** The file and the title are always sent; the other fields only when truthy. */
  function UploadFieldValues(d: DocumentUpload): (r: seq<Option<FormValue>>)
    ensures |r| == |UploadFieldNames|
    ensures r[0] == Some(FilePart(d.file)) && r[1] == Some(TextPart(d.title))
  {
    [Some(FilePart(d.file)), Some(TextPart(d.title)), AsText(IfText(d.description)),
     AsText(IfNumber(d.caseId)), AsText(IfNumber(d.appointmentId)), AsText(IfNumber(d.clientId))]
  }

  /** Builds the `FormData` of `uploadDocument`, field by field. */
  method UploadForm(d: DocumentUpload) returns (entries: seq<(string, FormValue)>)
    ensures entries == Present(UploadFieldNames, UploadFieldValues(d))
  {
    ghost var values := UploadFieldValues(d);
    entries := [("file", FilePart(d.file)), ("title", TextPart(d.title))];
    assert entries == PresentUpTo(UploadFieldNames, values, 2);
    entries := AppendIf(entries, "description", AsText(IfText(d.description)), UploadFieldNames, values, 2);
    entries := AppendIf(entries, "case_id", AsText(IfNumber(d.caseId)), UploadFieldNames, values, 3);
    entries := AppendIf(entries, "appointment_id", AsText(IfNumber(d.appointmentId)), UploadFieldNames, values, 4);
    entries := AppendIf(entries, "client_id", AsText(IfNumber(d.clientId)), UploadFieldNames, values, 5);
  }

  /** The upload always carries the file first and the title second, and is
      sent without a JSON content type, so the browser can set the boundary. */
  lemma UploadShape(store: Store, d: DocumentUpload)
    ensures var form := Present(UploadFieldNames, UploadFieldValues(d));
      |form| >= 2 && form[0] == ("file", FilePart(d.file)) && form[1] == ("title", TextPart(d.title))
      && Lookup(ExpectedHeaders(store, [], Form(form)), "Content-Type") == None
  {
    var values := UploadFieldValues(d);
    var form := Present(UploadFieldNames, values);
    assert PresentUpTo(UploadFieldNames, values, 2) == [("file", FilePart(d.file)), ("title", TextPart(d.title))];
    PresentUpToPrefix(UploadFieldNames, values, 2, 6);
    ContentTypeHeader(store, [], Form(form));
  }

  // ---------------------------------------------------------------- dashboard

  datatype DashboardStats = DashboardStats(
    activeCases: JsValue, totalClients: JsValue, upcomingAppointments: JsValue,
    totalRevenue: JsValue, outstandingRevenue: JsValue, recentActivities: JsValue)

  const ZeroStats := DashboardStats(Num(0), Num(0), Num(0), Num(0), Num(0), Arr([]))

  /** `field || fallback` on the fetched statistics. */
  function StatField(stats: JsValue, name: string, fallback: JsValue): (r: JsValue)
    requires !Nullish(stats)
    ensures Truthy(Get(stats, name)) ==> r == Get(stats, name)
    ensures !Truthy(Get(stats, name)) ==> r == fallback
    ensures r == fallback || (Truthy(r) && stats.Obj? && name in stats.props && r == stats.props[name])
  {
    Or(Get(stats, name), fallback)
  }

  /** A dashboard field as `stats.x || fallback` leaves it. */
  predicate FieldOr(stats: JsValue, name: string, fallback: JsValue, field: JsValue)
    requires !Nullish(stats)
  {
    if Truthy(Get(stats, name)) then field == Get(stats, name) else field == fallback
  }

  /** `getDashboardStats`: never rejects. A failed fetch, or a `null` body
      (reading a field of it throws inside the `try`), gives all zeros. */
  function DashboardStatsOf(fetched: Result<JsValue, Failure>): (r: DashboardStats)
    ensures fetched.Err? ==> r == ZeroStats
    ensures fetched.Ok? && Nullish(fetched.value) ==> r == ZeroStats
    ensures fetched.Ok? && !Nullish(fetched.value) ==> (var stats := fetched.value;
      && FieldOr(stats, "activeCases", Num(0), r.activeCases)
      && FieldOr(stats, "totalClients", Num(0), r.totalClients)
      && FieldOr(stats, "upcomingAppointments", Num(0), r.upcomingAppointments)
      && FieldOr(stats, "totalRevenue", Num(0), r.totalRevenue)
      && FieldOr(stats, "outstandingRevenue", Num(0), r.outstandingRevenue)
      && FieldOr(stats, "recentActivities", Arr([]), r.recentActivities))
    ensures (Truthy(r.activeCases) || r.activeCases == Num(0))
      && (Truthy(r.totalClients) || r.totalClients == Num(0))
      && (Truthy(r.upcomingAppointments) || r.upcomingAppointments == Num(0))
      && (Truthy(r.totalRevenue) || r.totalRevenue == Num(0))
      && (Truthy(r.outstandingRevenue) || r.outstandingRevenue == Num(0))
      && (Truthy(r.recentActivities) || r.recentActivities == Arr([]))
  {
    match fetched
    case Err(_) => ZeroStats
    case Ok(stats) =>
      if Nullish(stats) then ZeroStats
      else DashboardStats(
        StatField(stats, "activeCases", Num(0)),
        StatField(stats, "totalClients", Num(0)),
        StatField(stats, "upcomingAppointments", Num(0)),
        StatField(stats, "totalRevenue", Num(0)),
        StatField(stats, "outstandingRevenue", Num(0)),
        StatField(stats, "recentActivities", Arr([])))
  }

  /** A truthy field of the fetched statistics is passed through unchanged. */
  lemma DashboardStatsKeepsTruthy(props: map<string, JsValue>)
    ensures var r := DashboardStatsOf(Ok(Obj(props)));
      && ("activeCases" in props && Truthy(props["activeCases"]) ==> r.activeCases == props["activeCases"])
      && ("totalClients" in props && Truthy(props["totalClients"]) ==> r.totalClients == props["totalClients"])
      && ("upcomingAppointments" in props && Truthy(props["upcomingAppointments"])
          ==> r.upcomingAppointments == props["upcomingAppointments"])
      && ("totalRevenue" in props && Truthy(props["totalRevenue"]) ==> r.totalRevenue == props["totalRevenue"])
      && ("outstandingRevenue" in props && Truthy(props["outstandingRevenue"])
          ==> r.outstandingRevenue == props["outstandingRevenue"])
      && ("recentActivities" in props && Truthy(props["recentActivities"])
          ==> r.recentActivities == props["recentActivities"])
  {
  }

  /** `getCasesForDashboard` and `getUpcomingAppointments`: the array body, or
      `[]` on any error or any body that is not an array. */
  function ListOrEmpty(fetched: Result<JsValue, Failure>): (r: seq<JsValue>)
    ensures r != [] ==> fetched == Ok(Arr(r))
    ensures fetched.Ok? && fetched.value.Arr? ==> r == fetched.value.items
  {
    match fetched
    case Ok(Arr(items)) => items
    case _ => []
  }

  // ---------------------------------------------------------------- clients

  /** `own properties of v` copied by a spread. Index properties of spread
      strings and arrays are not modelled. */
  function Spread(v: JsValue): map<string, JsValue> {
    if v.Obj? then v.props else map[]
  }

  /** `client.cases?.length` */
  function LengthOf(v: JsValue): (r: JsValue)
    ensures r.Num? ==> r.n >= 0
  {
    match v
    case Arr(items) => Num(|items|)
    case Str(s) => Num(|s|)
    case _ => Undefined
  }

  /** One mapped client: the spread, then `cases` defaulted to `[]` and
      `cases_count` set from its length. */
  function ClientRow(c: JsValue): (r: JsValue)
    requires !Nullish(c)
    ensures r.Obj? && "cases" in r.props && "cases_count" in r.props
    ensures Truthy(r.props["cases"]) || r.props["cases"] == Arr([])
    ensures r.props["cases_count"].Num? && r.props["cases_count"].n >= 0
    ensures Truthy(Get(c, "cases")) ==> r.props["cases"] == Get(c, "cases")
    ensures !Truthy(Get(c, "cases")) ==> r.props["cases"] == Arr([])
    ensures c.Obj? && "cases" in c.props && c.props["cases"].Arr? ==>
      r.props["cases_count"] == Num(|c.props["cases"].items|)
    ensures Truthy(LengthOf(Get(c, "cases"))) ==> r.props["cases_count"] == LengthOf(Get(c, "cases"))
    ensures !Truthy(LengthOf(Get(c, "cases"))) ==> r.props["cases_count"] == Num(0)
    ensures forall k | k in Spread(c) && k != "cases" && k != "cases_count" :: k in r.props && r.props[k] == Spread(c)[k]
  {
    var cases := Get(c, "cases");
    Obj(Spread(c)["cases" := Or(cases, Arr([]))]["cases_count" := Or(LengthOf(cases), Num(0))])
  }

  /** `clients.map(...)`: a `null` client makes the whole call throw. */
  function ClientRows(items: seq<JsValue>): (r: Result<seq<JsValue>, Failure>)
    ensures r.Ok? <==> forall i | 0 <= i < |items| :: !Nullish(items[i])
    ensures r.Ok? ==> |r.value| == |items| && forall i | 0 <= i < |items| :: r.value[i] == ClientRow(items[i])
    ensures r.Err? ==> r.error == TypeError
    decreases |items|
  {
    if items == [] then Ok([])
    else if Nullish(items[0]) then Err(TypeError)
    else
      match ClientRows(items[1..])
      case Err(e) => Err(e)
      case Ok(rest) => Ok([ClientRow(items[0])] + rest)
  }

  /** `getClients`: errors pass through; a body that is not an array has no
      `map` and throws. */
  function GetClients(fetched: Result<JsValue, Failure>): (r: Result<seq<JsValue>, Failure>)
    ensures fetched.Err? ==> r == Err(fetched.error)
    ensures fetched.Ok? && !fetched.value.Arr? ==> r == Err(TypeError)
    ensures r.Ok? ==> fetched.Ok? && fetched.value.Arr? && |r.value| == |fetched.value.items|
  {
    match fetched
    case Err(e) => Err(e)
    case Ok(Arr(items)) => ClientRows(items)
    case Ok(_) => Err(TypeError)
  }

  // ---------------------------------------------------------------- case diary

  /** `toISOString().slice(0, 19) + 'Z'` */
  function TruncateIso(iso: string): string {
    (if |iso| <= 19 then iso else iso[..19]) + "Z"
  }

  /** An ISO timestamp (at least 19 characters) becomes 20 characters ending
      in `Z` with its first 19 kept; doing it twice changes nothing more. */
  lemma TruncateIsoShape(iso: string)
    requires |iso| >= 19
    ensures |TruncateIso(iso)| == 20 && TruncateIso(iso)[19] == 'Z'
    ensures TruncateIso(iso)[..19] == iso[..19]
    ensures TruncateIso(TruncateIso(iso)) == TruncateIso(iso)
  {
    assert TruncateIso(iso)[..19] == iso[..19];
  }

  /** `createCaseActivity` and `updateCaseActivity`: a truthy `activity_date` is
      replaced by its truncated ISO form (`toIso` stands for
      `new Date(x).toISOString()`, `None` when the date is invalid, which throws). */
  function FormatActivityDate(data: map<string, JsValue>, toIso: JsValue -> Option<string>)
    : (r: Result<map<string, JsValue>, Failure>)
    ensures r.Err? <==> "activity_date" in data && Truthy(data["activity_date"]) && toIso(data["activity_date"]).None?
    ensures r.Err? ==> r.error == RangeError
    ensures r.Ok? ==> (r.value.Keys == data.Keys
      && forall k | k in data && k != "activity_date" :: r.value[k] == data[k])
    ensures r.Ok? && "activity_date" in data && Truthy(data["activity_date"]) ==>
      r.value["activity_date"] == Str(TruncateIso(toIso(data["activity_date"]).value))
    ensures ("activity_date" !in data || !Truthy(data["activity_date"])) ==> r == Ok(data)
  {
    if "activity_date" in data && Truthy(data["activity_date"]) then
      match toIso(data["activity_date"])
      case None => Err(RangeError)
      case Some(iso) => Ok(data["activity_date" := Str(TruncateIso(iso))])
    else Ok(data)
  }

  // ---------------------------------------------------------------- download

  /** `downloadDocument` builds its own header: the token interpolated into a
      template, so a missing token is sent as the text `null`. */
  function DownloadHeaders(store: Store): (r: map<string, string>)
    ensures r.Keys == {"Authorization"}
    ensures "authToken" !in store ==> r["Authorization"] == "Bearer null"
    ensures "authToken" in store ==> r["Authorization"] == "Bearer " + store["authToken"]
  {
    var token := GetAuthToken(store);
    map["Authorization" := "Bearer " + (if token.Some? then token.value else "null")]
  }

  /** `downloadDocument`'s handling of the exchange: the response (whose blob is
      read) when ok, otherwise an error built from `detail` or the status. */
  function DownloadOutcome(e: Exchange): (r: Result<Response, Failure>)
    ensures r.Ok? <==> e.Delivered? && IsOk(e.response.status)
    ensures r.Ok? ==> r.value == e.response
    ensures e.Delivered? && !IsOk(e.response.status) && e.response.body.Parsed? && Nullish(e.response.body.v) ==>
      r == Err(TypeError)
    ensures (e.Delivered? && !IsOk(e.response.status) && e.response.body.Parsed? && !Nullish(e.response.body.v)
      && Truthy(Get(e.response.body.v, "detail"))) ==>
      r == Err(PlainError(ToJsString(Get(e.response.body.v, "detail"))))
  {
    match e
    case TransportFailed => Err(NetworkError)
    case Delivered(resp) =>
      if IsOk(resp.status) then Ok(resp)
      else
        var data := match resp.body
          case Parsed(v) => v
          case Unparseable => Obj(map["detail" := Str("An unknown error occurred")]);
        if Nullish(data) then Err(TypeError)
        else Err(PlainError(ToJsString(Or(Get(data, "detail"), Str("HTTP error! status: " + IntToString(resp.status))))))
  }

  /** A failed download reports "An unknown error occurred" when its body is not
      JSON, the text of a truthy `detail`, "HTTP error! status: N" when the body
      has no truthy `detail`, and a TypeError for a `null` body. */
  lemma DownloadFailureMessages(status: int, props: map<string, JsValue>)
    requires !IsOk(status)
    ensures DownloadOutcome(Delivered(Response(status, Unparseable))) == Err(PlainError("An unknown error occurred"))
    ensures DownloadOutcome(Delivered(Response(status, Parsed(Null)))) == Err(TypeError)
    ensures "detail" in props && Truthy(props["detail"]) ==>
      DownloadOutcome(Delivered(Response(status, Parsed(Obj(props))))) == Err(PlainError(ToJsString(props["detail"])))
    ensures ("detail" !in props || !Truthy(props["detail"])) ==>
      DownloadOutcome(Delivered(Response(status, Parsed(Obj(props)))))
        == Err(PlainError("HTTP error! status: " + IntToString(status)))
  {
  }
}
