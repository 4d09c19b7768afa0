/** The pure part of the bot (homework.py): the verdict table, the schema
    check of a decoded JSON object, response validation, normalisation of
    the API reply, status translation, the secrets check and the Telegram
    send wrapper. Network, clock and bot are inputs. */
module Homework {
  import opened TextUtil
  import opened Json
  import opened Exceptions

  /** Seconds between two poll cycles (RETRY_TIME). */
  const RetryTime: nat := 600
  const Endpoint: string := "https://practicum.yandex.ru/api/user_api/homework_statuses/"
  const HttpOk: int := 200

  const ApprovedVerdict: string := "Работа проверена: ревьюеру всё понравилось. Ура!"
  const ReviewingVerdict: string := "Работа взята на проверку ревьюером."
  const RejectedVerdict: string := "Работа проверена: у ревьюера есть замечания."

  /** HOMEWORK_STATUSES: review status to human-readable verdict. */
  const HomeworkStatuses: map<string, string> :=
    map["approved" := ApprovedVerdict, "reviewing" := ReviewingVerdict, "rejected" := RejectedVerdict]

  /** Python's `type(v).__name__`. */
  function PyTypeName(v: Json): string {
    match v
    case JNull => "NoneType"
    case JBool(_) => "bool"
    case JInt(_) => "int"
    case JFloat(_) => "float"
    case JStr(_) => "str"
    case JList(_) => "list"
    case JObject(_) => "dict"
  }

  function ClassRepr(t: PyClass): string {
    match t
    case ListClass => "<class 'list'>"
    case IntClass => "<class 'int'>"
  }

  // ---------------------------------------------------------------------
  // Python's `key in obj` and `obj[key]` on a decoded value

  /** `key in obj`: dict membership, list element equality, substring test
      on a str; a TypeError for the scalars. */
  function ContainsKey(obj: Json, key: string): (r: Result<bool>)
    ensures obj.JObject? ==> r == Ok(key in obj.fields)
    ensures r.Raised? <==> !(obj.JObject? || obj.JList? || obj.JStr?)
  {
    match obj
    case JObject(fields) => Ok(key in fields)
    case JList(items) => Ok(JStr(key) in items)
    case JStr(s) => Ok(IsInfix(key, s))
    case _ => Raised(OtherError("argument of type '" + PyTypeName(obj) + "' is not iterable"))
  }

  /** `obj[key]` with a str key: a KeyError when a dict lacks it, a
      TypeError on anything but a dict. */
  function GetItem(obj: Json, key: string): (r: Result<Json>)
    ensures r.Ok? <==> obj.JObject? && key in obj.fields
    ensures r.Ok? ==> r.value == obj.fields[key]
  {
    match obj
    case JObject(fields) =>
      if key in fields then Ok(fields[key]) else Raised(OtherError("'" + key + "'"))
    case JList(_) => Raised(OtherError("list indices must be integers or slices, not str"))
    case JStr(_) => Raised(OtherError("string indices must be integers"))
    case _ => Raised(OtherError("'" + PyTypeName(obj) + "' object is not subscriptable"))
  }

  // ---------------------------------------------------------------------
  // check_correct_obj_keys_and_valuse

  /** One entry of a key-to-class schema. */
  datatype Field = Field(key: string, expected: PyClass)

  function MissingKeyText(key: string): string {
    "У json отсутствует ключ: " + key + "!"
  }

  function TypeMismatchText(key: string, t: PyClass): string {
    "У json c ключом " + key + " ожидался тип: " + ClassRepr(t) + ","
  }

  /** Python's `int(s)` accepts `s`: an optional sign followed by decimal digits. */
  predicate IsIntLiteral(s: string) {
    && |s| >= 1
    && (s[0] == '-' || s[0] == '+' ==> |s| >= 2 && IsDigits(s[1..]))
    && (s[0] != '-' && s[0] != '+' ==> IsDigits(s))
  }

  /** The exception raised while the ApiJsonTypeError message is formatted.
      In that message the loop variable `type` shadows the builtin, so
      `type(obj[key])` calls `list(v)` or `int(v)`; None when that call
      returns. `list` accepts the iterables (str, list, dict); `int` accepts
      ints, bools, finite floats and integer literals. */
  function ShadowedConversion(v: Json, t: PyClass): (r: Option<Error>)
    ensures r.Some? ==> r.value.OtherError?
    ensures t == ListClass ==> (r.None? <==> v.JStr? || v.JList? || v.JObject?)
    ensures t == IntClass && (v.JNull? || v.JList? || v.JObject?) ==> r.Some?
    ensures t == IntClass && v.JStr? ==> (r.None? <==> IsIntLiteral(v.s))
  {
    match t
    case ListClass =>
      if v.JStr? || v.JList? || v.JObject? then None
      else Some(OtherError("'" + PyTypeName(v) + "' object is not iterable"))
    case IntClass =>
      match v
      case JInt(_) => None
      case JBool(_) => None
      case JFloat(r) =>
        if r == "inf" || r == "-inf" then Some(OtherError("cannot convert float infinity to integer"))
        else if r == "nan" then Some(OtherError("cannot convert float NaN to integer"))
        else None
      case JStr(s) =>
        if IsIntLiteral(s) then None
        else Some(OtherError("invalid literal for int() with base 10: '" + s + "'"))
      case _ =>
        Some(OtherError("int() argument must be a string, a bytes-like object or a real number, not '"
                        + PyTypeName(v) + "'"))
  }

  /** One iteration of the schema loop: the membership test first, then the
      lookup, then the isinstance test. A value of the wrong class raises
      ApiJsonTypeError only when the shadowed conversion in its message
      returns; otherwise the conversion's TypeError or ValueError escapes. */
  function CheckField(obj: Json, f: Field): (r: Result<()>)
    ensures r.Ok? <==> obj.JObject? && f.key in obj.fields && IsInstance(obj.fields[f.key], f.expected)
    ensures obj.JObject? && f.key !in obj.fields ==> r == Raised(ApiJsonKeyError(MissingKeyText(f.key)))
    ensures obj.JObject? && f.key in obj.fields && !IsInstance(obj.fields[f.key], f.expected)
            && ShadowedConversion(obj.fields[f.key], f.expected).None?
            ==> r == Raised(ApiJsonTypeError(TypeMismatchText(f.key, f.expected)))
    ensures obj.JObject? && f.key in obj.fields && !IsInstance(obj.fields[f.key], f.expected)
            && ShadowedConversion(obj.fields[f.key], f.expected).Some?
            ==> r == Raised(ShadowedConversion(obj.fields[f.key], f.expected).value)
  {
    match ContainsKey(obj, f.key)
    case Raised(e) => Raised(e)
    case Ok(present) =>
      if !present then Raised(ApiJsonKeyError(MissingKeyText(f.key)))
      else match GetItem(obj, f.key)
        case Raised(e) => Raised(e)
        case Ok(v) =>
          if IsInstance(v, f.expected) then Ok(())
          else match ShadowedConversion(v, f.expected)
            case Some(e) => Raised(e)
            case None => Raised(ApiJsonTypeError(TypeMismatchText(f.key, f.expected)))
  }

  /** The schema check: the entries are checked in order and the first
      failing one raises. */
  function SchemaCheck(schema: seq<Field>, obj: Json): (r: Result<()>)
    ensures r.Ok? <==> forall i :: 0 <= i < |schema| ==> CheckField(obj, schema[i]).Ok?
  {
    if schema == [] then Ok(())
    else match CheckField(obj, schema[0])
      case Raised(e) => Raised(e)
      case Ok(_) => SchemaCheck(schema[1..], obj)
  }

  /** A failing schema check reports exactly the error of the first entry
      that fails, all entries before it having passed. */
  lemma {:induction false} SchemaCheckFirstFailure(schema: seq<Field>, obj: Json)
    requires SchemaCheck(schema, obj).Raised?
    ensures exists k :: (0 <= k < |schema|
                         && (forall j :: 0 <= j < k ==> CheckField(obj, schema[j]).Ok?)
                         && SchemaCheck(schema, obj) == CheckField(obj, schema[k]))
  {
    if CheckField(obj, schema[0]).Raised? {
      assert SchemaCheck(schema, obj) == CheckField(obj, schema[0]);
    } else {
      SchemaCheckFirstFailure(schema[1..], obj);
      var k :| 0 <= k < |schema[1..]|
        && (forall j :: 0 <= j < k ==> CheckField(obj, schema[1..][j]).Ok?)
        && SchemaCheck(schema[1..], obj) == CheckField(obj, schema[1..][k]);
      assert schema[1..][k] == schema[k + 1];
      forall j | 0 <= j < k + 1 ensures CheckField(obj, schema[j]).Ok? {
        if j > 0 { assert schema[j] == schema[1..][j - 1]; }
      }
    }
  }

  /** On a dict the check passes iff every schema key is present with a
      value of its class; on anything else a non-empty schema is rejected. */
  lemma SchemaCheckOnObject(schema: seq<Field>, obj: Json)
    ensures obj.JObject? ==>
      (SchemaCheck(schema, obj).Ok? <==>
        forall i :: 0 <= i < |schema| ==>
          schema[i].key in obj.fields && IsInstance(obj.fields[schema[i].key], schema[i].expected))
    ensures !obj.JObject? && schema != [] ==> SchemaCheck(schema, obj).Raised?
  {
    if !obj.JObject? && schema != [] {
      assert CheckField(obj, schema[0]).Raised?;
    }
  }

  /** check_correct_obj_keys_and_valuse: the `for` loop over the schema. */
  method CheckObjKeysAndValues(schema: seq<Field>, obj: Json) returns (r: Result<()>)
    ensures r == SchemaCheck(schema, obj)
  {
    for i := 0 to |schema|
      invariant SchemaCheck(schema, obj) == SchemaCheck(schema[i..], obj)
    {
      var step := CheckField(obj, schema[i]);
      if step.Raised? {
        return step;
      }
      assert schema[i..][1..] == schema[i + 1..];
    }
    assert schema[|schema|..] == [];
    return Ok(());
  }

  // ---------------------------------------------------------------------
  // check_response

  const ResponseSchema: seq<Field> := [Field("homeworks", ListClass), Field("current_date", IntClass)]

  /** What check_response accepts: a dict whose `homeworks` is a list and
      whose `current_date` passes `isinstance(..., int)`. */
  predicate ValidResponse(v: Json) {
    && v.JObject?
    && "homeworks" in v.fields && v.fields["homeworks"].JList?
    && "current_date" in v.fields && IsPyInt(v.fields["current_date"])
  }

  /** check_response: the homeworks list of an accepted response, unchanged
      (an empty list is accepted too). */
  function CheckResponse(response: Json): (r: Result<seq<Json>>)
    ensures r.Ok? <==> ValidResponse(response)
    ensures r.Ok? ==> r.value == response.fields["homeworks"].items
    ensures r.Raised? ==> SchemaCheck(ResponseSchema, response) == Raised(r.error)
  {
    match SchemaCheck(ResponseSchema, response)
    case Raised(e) => ResponseSchemaMeaning(response); Raised(e)
    case Ok(_) =>
      ResponseSchemaMeaning(response);
      Ok(response.fields["homeworks"].items)
  }

  /** The response schema accepts exactly the valid responses. */
  lemma ResponseSchemaMeaning(response: Json)
    ensures SchemaCheck(ResponseSchema, response).Ok? <==> ValidResponse(response)
  {
    if ValidResponse(response) {
      forall i | 0 <= i < |ResponseSchema| ensures CheckField(response, ResponseSchema[i]).Ok? {
      }
    }
  }

  /** `homeworks` is checked before `current_date`: a dict missing
      `homeworks` is reported as that missing key whatever `current_date`
      holds, and `current_date` is reported only when `homeworks` is a list. */
  lemma CheckResponseKeyOrder(fields: map<string, Json>)
    ensures "homeworks" !in fields ==>
      CheckResponse(JObject(fields)) == Raised(ApiJsonKeyError(MissingKeyText("homeworks")))
    ensures "homeworks" in fields && (fields["homeworks"].JStr? || fields["homeworks"].JObject?) ==>
      CheckResponse(JObject(fields)) == Raised(ApiJsonTypeError(TypeMismatchText("homeworks", ListClass)))
    ensures "homeworks" in fields && !(fields["homeworks"].JStr? || fields["homeworks"].JList? || fields["homeworks"].JObject?) ==>
      CheckResponse(JObject(fields)).Raised? && CheckResponse(JObject(fields)).error.OtherError?
    ensures "homeworks" in fields && fields["homeworks"].JList? && "current_date" !in fields ==>
      CheckResponse(JObject(fields)) == Raised(ApiJsonKeyError(MissingKeyText("current_date")))
  {
    var obj := JObject(fields);
    assert SchemaCheck(ResponseSchema, obj) ==
      match CheckField(obj, ResponseSchema[0])
      case Raised(e) => Raised(e)
      case Ok(_) => SchemaCheck(ResponseSchema[1..], obj);
    assert ResponseSchema[1..] == [Field("current_date", IntClass)];
  }

  // ---------------------------------------------------------------------
  // get_api_answer

  /** The decoded body of an HTTP reply, or the decoder's complaint. */
  datatype Body = JsonBody(value: Json) | NotJson(decodeError: string)

  /** What `requests.get` produced: a reply, or the exception it raised. */
  datatype HttpReply = Reply(statusCode: int, body: Body) | ConnectionFailed(message: string)

  /** The `from_date` query parameter: the cursor, or the current time when
      the cursor is falsy (0). */
  function FromDate(cursor: Json, now: int): (r: Json)
    ensures Truthy(cursor) ==> r == cursor
    ensures !Truthy(cursor) ==> r == JInt(now)
    ensures IsPyInt(cursor) ==> IsPyInt(r)
  {
    if Truthy(cursor) then cursor else JInt(now)
  }

  /** The part of get_api_answer after the request: the status check and
      the normalisation of a list body to its first element. */
  function GetApiAnswer(reply: HttpReply): (r: Result<Json>)
    ensures (r.Raised? && r.error.StatusCodeNot200?) <==> (reply.Reply? && reply.statusCode != HttpOk)
    ensures r.Raised? && r.error.StatusCodeNot200? ==>
      r.error.statusCode == reply.statusCode && r.error.url == Endpoint
    ensures r.Ok? <==>
      reply.Reply? && reply.statusCode == HttpOk && reply.body.JsonBody?
      && reply.body.value != JList([])
    ensures r.Ok? && reply.body.value.JList? ==> r.value == reply.body.value.items[0]
    ensures r.Ok? && !reply.body.value.JList? ==> r.value == reply.body.value
  {
    match reply
    case ConnectionFailed(m) => Raised(OtherError(m))
    case Reply(code, body) =>
      if code != HttpOk then Raised(StatusCodeNot200(code, Endpoint))
      else match body
        case NotJson(m) => Raised(OtherError(m))
        case JsonBody(v) =>
          if v.JList? then
            if |v.items| == 0 then Raised(OtherError("list index out of range")) else Ok(v.items[0])
          else Ok(v)
  }

  /** The legacy shape is transparent: a body wrapped in a list (and
      followed by anything) is read exactly as the body itself when the
      body is not a list. */
  lemma ListWrapperIsTransparent(v: Json, rest: seq<Json>)
    requires !v.JList?
    ensures GetApiAnswer(Reply(HttpOk, JsonBody(JList([v] + rest))))
         == GetApiAnswer(Reply(HttpOk, JsonBody(v)))
         == Ok(v)
  {
  }

  // ---------------------------------------------------------------------
  // parse_status

  const MessageHead: string := "Изменился статус проверки работы \""

  /** The notification for a homework whose name prints as `name`. */
  function StatusMessage(name: string, verdict: string): string {
    MessageHead + name + "\". " + verdict
  }

  function UnknownStatusText(status: Json): string {
    "Недокументированный статус домашней работы: " + PyStr(status) + "!"
  }

  /** The homework record is a dict holding both fields and a status from
      the verdict table. */
  predicate KnownHomework(homework: Json) {
    && homework.JObject?
    && "homework_name" in homework.fields
    && "status" in homework.fields
    && homework.fields["status"].JStr?
    && homework.fields["status"].s in HomeworkStatuses
  }

  /** parse_status: the fields are read without validation (a missing one
      raises KeyError), an unknown status raises, a known one gives the
      notification text. */
  function ParseStatus(homework: Json): (r: Result<string>)
    ensures r.Ok? <==> KnownHomework(homework)
    ensures r.Ok? ==> r.value == StatusMessage(
      PyStr(homework.fields["homework_name"]), HomeworkStatuses[homework.fields["status"].s])
    ensures homework.JObject? && "homework_name" in homework.fields && "status" in homework.fields
            && IsHashable(homework.fields["status"]) && !KnownHomework(homework)
            ==> r == Raised(UnknownHomeworkStatus(UnknownStatusText(homework.fields["status"])))
  {
    match GetItem(homework, "homework_name")
    case Raised(e) => Raised(e)
    case Ok(name) =>
      match GetItem(homework, "status")
      case Raised(e) => Raised(e)
      case Ok(status) =>
        if !IsHashable(status) then Raised(OtherError("unhashable type: '" + PyTypeName(status) + "'"))
        else if !(status.JStr? && status.s in HomeworkStatuses) then
          Raised(UnknownHomeworkStatus(UnknownStatusText(status)))
        else Ok(StatusMessage(PyStr(name), HomeworkStatuses[status.s]))
  }

  /** The closing part of a notification for a status of the table. */
  function VerdictTail(status: string): string
    requires status in HomeworkStatuses
  {
    "\". " + HomeworkStatuses[status]
  }

  predicate EndsWithVerdict(text: string, status: string)
    requires status in HomeworkStatuses
  {
    |MessageHead| + |VerdictTail(status)| <= |text| && IsSuffix(VerdictTail(status), text)
  }

  function NameBetween(text: string, status: string): string
    requires status in HomeworkStatuses
    requires EndsWithVerdict(text, status)
  {
    text[|MessageHead|..|text| - |VerdictTail(status)|]
  }

  /** Reads a notification back into the printed name and the status key. */
  function DecodeStatusMessage(text: string): (r: Option<(string, string)>)
    ensures r.Some? ==> (r.value.1 in HomeworkStatuses
                         && StatusMessage(r.value.0, HomeworkStatuses[r.value.1]) == text)
  {
    if !IsPrefix(MessageHead, text) then None
    else if EndsWithVerdict(text, "approved") then
      Reassemble(text, "approved");
      Some((NameBetween(text, "approved"), "approved"))
    else if EndsWithVerdict(text, "reviewing") then
      Reassemble(text, "reviewing");
      Some((NameBetween(text, "reviewing"), "reviewing"))
    else if EndsWithVerdict(text, "rejected") then
      Reassemble(text, "rejected");
      Some((NameBetween(text, "rejected"), "rejected"))
    else None
  }

  lemma SplitAround(text: string, head: string, tail: string)
    requires IsPrefix(head, text) && IsSuffix(tail, text) && |head| + |tail| <= |text|
    ensures head + text[|head|..|text| - |tail|] + tail == text
  {
    assert text == text[..|head|] + text[|head|..|text| - |tail|] + text[|text| - |tail|..];
  }

  lemma Reassemble(text: string, status: string)
    requires status in HomeworkStatuses
    requires IsPrefix(MessageHead, text) && EndsWithVerdict(text, status)
    ensures StatusMessage(NameBetween(text, status), HomeworkStatuses[status]) == text
  {
    var name := NameBetween(text, status);
    SplitAround(text, MessageHead, VerdictTail(status));
    assert StatusMessage(name, HomeworkStatuses[status]) == MessageHead + name + VerdictTail(status);
  }

  lemma LastTwoChars(t: string, text: string)
    requires IsSuffix(t, text) && 2 <= |t|
    ensures text[|text| - 1] == t[|t| - 1] && text[|text| - 2] == t[|t| - 2]
  {
    assert text[|text| - |t|..][|t| - 1] == text[|text| - 1];
    assert text[|text| - |t|..][|t| - 2] == text[|text| - 2];
  }

  /** Distinct verdicts end differently, so at most one verdict tail fits. */
  lemma VerdictTailsExclusive(text: string, s1: string, s2: string)
    requires s1 in HomeworkStatuses && s2 in HomeworkStatuses && s1 != s2
    requires IsSuffix(VerdictTail(s1), text)
    ensures !IsSuffix(VerdictTail(s2), text)
  {
    if IsSuffix(VerdictTail(s2), text) {
      LastTwoChars(VerdictTail(s1), text);
      LastTwoChars(VerdictTail(s2), text);
      assert false;
    }
  }

  /** A notification determines the printed name and the status it was
      built from. */
  lemma DecodeStatusMessageRoundTrip(name: string, status: string)
    requires status in HomeworkStatuses
    ensures DecodeStatusMessage(StatusMessage(name, HomeworkStatuses[status])) == Some((name, status))
  {
    var text := StatusMessage(name, HomeworkStatuses[status]);
    assert text == MessageHead + name + VerdictTail(status);
    assert IsPrefix(MessageHead, text);
    assert IsSuffix(VerdictTail(status), text);
    assert EndsWithVerdict(text, status);
    assert NameBetween(text, status) == name;
    if status != "approved" { VerdictTailsExclusive(text, status, "approved"); }
    if status != "reviewing" { VerdictTailsExclusive(text, status, "reviewing"); }
  }

  /** Two homeworks yield the same notification only when their names print
      alike and their statuses agree. */
  lemma ParseStatusInjective(h1: Json, h2: Json)
    requires ParseStatus(h1).Ok? && ParseStatus(h1) == ParseStatus(h2)
    ensures PyStr(h1.fields["homework_name"]) == PyStr(h2.fields["homework_name"])
    ensures h1.fields["status"] == h2.fields["status"]
  {
    DecodeStatusMessageRoundTrip(PyStr(h1.fields["homework_name"]), h1.fields["status"].s);
    DecodeStatusMessageRoundTrip(PyStr(h2.fields["homework_name"]), h2.fields["status"].s);
  }

  // ---------------------------------------------------------------------
  // check_tokens

  /** A secret is truthy when it was set and is not empty. */
  predicate SecretSet(secret: Option<string>) {
    secret.Some? && secret.value != ""
  }

  /** Python's `all` over a tuple of secrets, left to right. */
  function AllSet(secrets: seq<Option<string>>): bool {
    secrets == [] || (SecretSet(secrets[0]) && AllSet(secrets[1..]))
  }

  /** `all` holds exactly when every element is truthy. */
  lemma {:induction false} AllSetMeaning(secrets: seq<Option<string>>)
    ensures AllSet(secrets) <==> forall i :: 0 <= i < |secrets| ==> SecretSet(secrets[i])
  {
    if secrets != [] {
      AllSetMeaning(secrets[1..]);
      assert forall i :: 1 <= i < |secrets| ==> secrets[i] == secrets[1..][i - 1];
    }
  }

  /** check_tokens: `all((PRACTICUM_TOKEN, TELEGRAM_TOKEN, TELEGRAM_CHAT_ID))`. */
  function CheckTokens(practicumToken: Option<string>, telegramToken: Option<string>,
                       chatId: Option<string>): (r: bool)
    ensures r <==> SecretSet(practicumToken) && SecretSet(telegramToken) && SecretSet(chatId)
    ensures practicumToken == None || telegramToken == None || chatId == None ==> !r
    ensures practicumToken == Some("") || telegramToken == Some("") || chatId == Some("") ==> !r
  {
    var secrets := [practicumToken, telegramToken, chatId];
    AllSetMeaning(secrets);
    assert secrets[0] == practicumToken && secrets[1] == telegramToken && secrets[2] == chatId;
    AllSet(secrets)
  }

  // ---------------------------------------------------------------------
  // send_message

  /** What the bot is handed: text, or (line 146) the exception object itself. */
  datatype MessageArg = Text(text: string) | ErrorObject(error: Error)

  /** How `bot.send_message` ended. */
  datatype SendOutcome = Delivered | Unauthorized | BadRequest | SendFailed(message: string)

  function Min(a: int, b: int): int {
    if a < b then a else b
  }

  /** `message[:40] + "..."` as the success log shows it. */
  function Preview(text: string): (r: string)
    ensures IsSuffix("...", r)
    ensures |r| == Min(40, |text|) + 3
    ensures IsPrefix(r[..|r| - 3], text)
    ensures |text| <= 40 ==> r == text + "..."
  {
    text[..Min(40, |text|)] + "..."
  }

  /** The line logged after a successful send. */
  function SentLogLine(text: string): string {
    "Сообщение (" + Preview(text) + ") успешно отправлено."
  }

  function ClassName(e: Error): string {
    match e
    case EnvVarDoesNotExist(_) => "EnvVarDoesNotExist"
    case StatusCodeNot200(_, _) => "StatusCodeNot200"
    case ApiJsonKeyError(_) => "ApiJsonKeyError"
    case ApiJsonTypeError(_) => "ApiJsonTypeError"
    case UnknownHomeworkStatus(_) => "UnknownHomeworkStatus"
    case TelegramTokenError(_) => "TelegramTokenError"
    case TelegramChatIdError(_) => "TelegramChatIdError"
    case ResponseObjNotJson(_) => "ResponseObjNotJson"
    case OtherError(_) => "Exception"
  }

  /** send_message: Unauthorized becomes TelegramTokenError, BadRequest
      becomes TelegramChatIdError, other failures propagate; on success the
      preview is logged, which needs a sliceable (text) message. */
  function SendMessage(arg: MessageArg, outcome: SendOutcome): (r: Result<string>)
    ensures r.Ok? <==> outcome.Delivered? && arg.Text?
    ensures r.Ok? ==> r.value == SentLogLine(arg.text)
    ensures outcome.Unauthorized? ==> r == Raised(TelegramTokenError(""))
    ensures outcome.BadRequest? ==> r == Raised(TelegramChatIdError(""))
    ensures outcome.SendFailed? ==> r == Raised(OtherError(outcome.message))
  {
    match outcome
    case Unauthorized => Raised(TelegramTokenError(""))
    case BadRequest => Raised(TelegramChatIdError(""))
    case SendFailed(m) => Raised(OtherError(m))
    case Delivered =>
      match arg
      case Text(t) => Ok(SentLogLine(t))
      case ErrorObject(e) => Raised(OtherError("'" + ClassName(e) + "' object is not subscriptable"))
  }
}
