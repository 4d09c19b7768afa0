# Homework-status bot: a Dafny model

This project models a Telegram bot that polls the Practicum homework-status
API. It reports each change in a homework's review status to one chat. The
model covers the bot's `homework.py` and its exception classes in
`exceptions.py`:

- the bot's error taxonomy and the text each error prints (`Exceptions`);
- the checks on the API's JSON reply and the status notification text
  (`Homework`);
- startup and the `while True` polling cycle with its cursor
  `current_timestamp` (`PollLoop`).

The network, the Telegram bot, the clock and the environment are
parameters:

- an `HttpReply` stands for what `requests.get` returned;
- a sequence of `SendOutcome`s stands for how the bot answered each send of
  a cycle;
- `now` stands for `int(time.time())`;
- `Option<string>` values stand for the three environment variables.

`Json` is the value `response.json()` decodes, with Python's `isinstance`,
truthiness and `str()` for the cases the bot meets. A JSON `true` is an
instance of `int`, because `bool` is a subclass of `int`.

The model is split into five files:

- `text.dfy` (`TextUtil`): Python's decimal rendering of ints and its
  substring test.
- `json.dfy` (`Json`): decoded JSON values.
- `exceptions.dfy` (`Exceptions`): the errors, `Option` and `Result`.
- `homework.dfy` (`Homework`): the functions of `homework.py` other than
  `main`.
- `pollloop.dfy` (`PollLoop`): `main`, including the `Poller` class. The
  class holds the loop's state and runs one cycle at a time.

What the code does at a few places a reader might not expect:

- A failed startup greeting is not a warning. It raises, and the bot exits
  (lines 116-126).
- `sys.exit()` with no argument exits with status 0, not with a failure
  status.
- Homework records are not checked for their fields; that check is commented
  out (lines 90-91). A record without `homework_name` or `status` raises a
  plain `KeyError`. That error reaches the generic failure alert.
- `ResponseObjNotJson` is declared but never raised. A body that is not JSON
  fails in `response.json()` and goes to the generic failure alert.
- The alert for the four reported error kinds fails, and its exception
  leaves the loop (see Findings).

## Model

| member | source | states |
|---|---|---|
| Exceptions.Str | exceptions.py:1-55 | An overriding class returns its non-empty base message unchanged and its fixed default otherwise, so its text is never empty. The other classes return the base message. |
| Exceptions.DefaultText | exceptions.py:4-55 | Each class that overrides `__str__` has a non-empty default text. |
| Exceptions.StatusCodeNot200NeverFallsBack | exceptions.py:8-19 | StatusCodeNot200 is built with two arguments, so its base text is the printed tuple `(code, 'url')`. Its formatted default is never what `str` returns. |
| Exceptions.StatusCodeNot200DefaultMentions | exceptions.py:15-19 | The default text contains the url and the status code, and says that 200 was expected. |
| Exceptions.StatusCodeNot200TextMentions | exceptions.py:8-19 | Whatever StatusCodeNot200 prints contains both the url and the status code. |
| TextUtil.ParseIntText | exceptions.py:17-18 | The decimal text printed for a status code reads back as that code. |
| TextUtil.IntTextInjective | exceptions.py:17-18 | Distinct status codes print as distinct texts. |
| Homework.ContainsKey | homework.py:42 | `key in obj` tests a dict's keys. It raises TypeError exactly when obj is not a dict, list or str. |
| Homework.GetItem | homework.py:92-93 | `obj[key]` succeeds exactly when obj is a dict holding key, and then returns that key's value. |
| Json.IsInstance | homework.py:44 | `isinstance(v, list)` holds on lists only; `isinstance(v, int)` holds on ints and on bools. Used by the CheckField and CheckResponse contracts. |
| Json.Truthy | homework.py:64 | Python truthiness of a decoded value, which decides `current_timestamp or ...`. Used by the FromDate contract. |
| Homework.HomeworkStatuses | homework.py:32-36 | The table of the three documented statuses and their verdicts. DecodeStatusMessageRoundTrip and VerdictTailsExclusive show that the verdicts tell the statuses apart. |
| Homework.ShadowedConversion | homework.py:45-48 | Formatting the ApiJsonTypeError message calls `list(v)` or `int(v)`, because the loop variable `type` shadows the builtin. `list` fails exactly on non-iterables. `int` fails on null, lists, dicts and non-literal strings. Any failure is a builtin exception (TypeError, ValueError or OverflowError), never an error of the bot's taxonomy. |
| Homework.CheckField | homework.py:41-48 | One schema entry passes exactly when the dict holds the key with a value of the expected class. A missing key raises ApiJsonKeyError naming the key. A value of the wrong class raises ApiJsonTypeError naming the key and the class when the shadowed conversion succeeds, and the conversion's own error otherwise. |
| Homework.SchemaCheck | homework.py:39-48 | The whole schema passes exactly when every entry passes. |
| Homework.SchemaCheckFirstFailure | homework.py:39-48 | A failed check raises the error of the first failing entry, in the dict's order; every entry before it passes. |
| Homework.SchemaCheckOnObject | homework.py:39-48 | On a dict, every entry is judged by key and class only. A non-dict fails any non-empty schema. |
| Homework.CheckObjKeysAndValues | homework.py:39-48 | The loop over the schema raises or passes exactly as the schema check does. |
| Homework.CheckResponse | homework.py:75-85 | A reply is accepted exactly when it is a dict with a list under `homeworks` and an int under `current_date`. Then the result is that list. Otherwise the result is the schema check's error. |
| Homework.ResponseSchemaMeaning | homework.py:77-78 | The `{'homeworks': list, 'current_date': int}` schema passes exactly on valid replies. |
| Homework.CheckResponseKeyOrder | homework.py:77-78 | `homeworks` is checked before `current_date`. A missing `homeworks` raises ApiJsonKeyError, whatever `current_date` holds. A str or dict under `homeworks` raises ApiJsonTypeError. Any other non-list raises a plain TypeError. |
| Homework.FromDate | homework.py:64-65 | A truthy cursor is sent as `from_date`, and a falsy one is replaced by the clock. An int cursor yields an int. |
| Homework.GetApiAnswer | homework.py:62-72 | A status other than 200 raises StatusCodeNot200 with that code and the endpoint. It succeeds exactly on a 200 JSON reply that is not an empty list. A list reply is replaced by its first element. |
| Homework.ListWrapperIsTransparent | homework.py:69-72 | When the bare reply is not itself a list, a reply wrapped in a list is treated like the bare reply. |
| Homework.ParseStatus | homework.py:88-99 | Succeeds exactly on a dict with `homework_name` and a documented `status`. Then it returns `Изменился статус проверки работы "<name>". <verdict>`. A hashable unknown status raises UnknownHomeworkStatus naming it. |
| Homework.DecodeStatusMessage | homework.py:99 | Any name and status it reads back reproduce the message. |
| Homework.DecodeStatusMessageRoundTrip | homework.py:32-36 | A status message reads back to its homework name and its status. |
| Homework.VerdictTailsExclusive | homework.py:32-36 | No message ends with two different verdicts. |
| Homework.ParseStatusInjective | homework.py:88-99 | Equal notifications come from homeworks with the same printed name and the same status. |
| Homework.AllSetMeaning | homework.py:104 | Python's `all` over the secrets holds exactly when every one is truthy. |
| Homework.CheckTokens | homework.py:102-104 | Computed as `all` over the three secrets. True exactly when each secret is set and non-empty, so a missing or empty variable fails the check. |
| Homework.Preview | homework.py:59 | The log preview is the text's first 40 characters followed by `...`. |
| Homework.SendMessage | homework.py:51-59 | Succeeds exactly when the bot delivers a text. Unauthorized becomes TelegramTokenError and BadRequest becomes TelegramChatIdError, both without a message. Other bot failures propagate. A delivered exception object fails at the log slice. |
| PollLoop.Startup | homework.py:107-126 | The bot starts exactly when the secrets are set, the bot is built and the greeting is delivered. Missing secrets exit with EnvVarDoesNotExist, a failed bot build with its own error, and a rejected token with TelegramTokenError. |
| PollLoop.SendLoop | homework.py:134-136 | The `for` loop as a function. SendLoopMeaning states what it sends and when it completes. |
| PollLoop.NotifyOne | homework.py:135-136 | One iteration hands the bot a message exactly when the status parses, and that message is the notification. The iteration completes exactly when the status parses and the send is delivered. Otherwise it raises the parse error or the send error. |
| PollLoop.SendLoopNotifications | homework.py:134-136 | Each message the loop hands the bot is the notification for the homework at that position, in list order. |
| PollLoop.SendLoopCompletion | homework.py:134-136 | The loop completes exactly when every homework parses and is delivered, and then it has sent one notification per homework. |
| PollLoop.SendLoopMeaning | homework.py:134-136 | Both of the above together: one notification per position, in list order, and completion exactly when every homework parses and is delivered. Where it stops is stated by SendLoopFirstFailure. |
| PollLoop.RunStepsFirstFailure | homework.py:134-136 | A run of iterations that raises was stopped by a step k: every earlier step completed, the run raises k's exception, and it sent one message per earlier step plus what step k sent. |
| PollLoop.SendLoopFirstFailure | homework.py:134-136 | A loop that raises stopped at a homework k: every earlier homework parsed and was delivered, the loop raises k's parse or send error, and it sent k messages plus k's own notification when k's status parsed. |
| PollLoop.NotifyAll | homework.py:134-136 | The `for` loop returns the sends made and the exception that stopped it, as the send-loop function does. |
| PollLoop.CycleSuccess | homework.py:128-137 | A cycle succeeds exactly when the reply is accepted, every status is known and every send is delivered. Then nothing escapes, the cursor becomes `current_date`, and the messages are exactly the notifications, in order. |
| PollLoop.EmptyHomeworksAdvanceCursor | homework.py:80-85 | An empty homework list sends nothing and still moves the cursor to `current_date`. |
| PollLoop.ApprovedHomeworkScenario | homework.py:128-137 | Cursor 1000, one approved homework "Proj1" and `current_date` 1600: the request uses 1000, one notification is sent, and the cursor becomes 1600. |
| PollLoop.TryBody | homework.py:130-137 | The `try` body of one cycle: request, check, send loop, then the new cursor. CycleSuccess and FailedCycleKeepsCursor state its results. |
| PollLoop.AlertArg | homework.py:139-150 | What each `except` clause hands to send_message: the exception object for the four reported kinds, and `Сбой в работе программы: <str(e)>` for any other exception. ReportedErrorAlertAlwaysRaises and ScalarHomeworksKeepsPolling state the consequences. |
| PollLoop.CycleWith | homework.py:129-152 | One pass of the loop body, `finally` included, for a given choice of alert. PollCycle and CorrectedPollCycle are its two instances. |
| PollLoop.PollCycle | homework.py:129-152 | One pass of the loop body as written. CycleSuccess, FailedCycleKeepsCursor, Non200ReplyEndsLoop and ScalarHomeworksKeepsPolling state its results. |
| PollLoop.FailedCycleKeepsCursor | homework.py:129-152 | A failed cycle keeps the cursor. The bot receives what the `try` body sent followed by exactly one alert. A reply refused before the loop sends the alert alone. A failure inside the loop sends, before the alert, the notification for each earlier homework, in list order. |
| PollLoop.FailedCycleCause | homework.py:129-146 | The exception a failed cycle reports is the request's error, else the response check's error, else that of the first homework k that did not parse or send. In the last case every earlier homework was delivered, and the bot was handed k notifications, k's own when its status parsed, and then the alert. |
| PollLoop.UnknownStatusScenario | homework.py:129-146 | An approved homework "a" then one with status "in_review": the bot gets the notification for "a", the cycle fails with UnknownHomeworkStatus naming "in_review" and sends that exception as the alert, the cursor stays at 1000, and the alert ends the loop. |
| PollLoop.CycleKeepsCursorInt | homework.py:128-137 | The cursor and the `from_date` sent stay Python ints. |
| PollLoop.Poller.constructor | homework.py:128 | The loop starts running with the cursor at the current time and nothing requested, sent or slept. |
| PollLoop.Poller.RunCycle | homework.py:129-152 | One pass of the loop body records one request and one sleep, and appends everything handed to the bot. The cursor becomes the cycle's cursor. The loop keeps running exactly when no exception escaped. |
| PollLoop.ReportedErrorAlertAlwaysRaises | homework.py:139-146 | As written, the alert for the four reported error kinds raises whatever the bot does. |
| PollLoop.Non200ReplyEndsLoop | homework.py:67-68 | As written, a non-200 reply keeps the cursor, hands the bot the exception object, and ends the loop. |
| PollLoop.ScalarHomeworksKeepsPolling | homework.py:44-48 | A null, bool or number under `homeworks` makes the shadowed `list(...)` raise TypeError. The generic clause (lines 147-150) then alerts with text, and the loop keeps polling from the same cursor once the bot delivers it. |
| PollLoop.TextHomeworksEndsLoop | homework.py:44-48 | A str or dict under `homeworks` gets past the shadowed `list(...)`, so ApiJsonTypeError is raised. Its alert then ends the loop with the cursor unchanged. |
| PollLoop.CorrectedAlertDelivered | homework.py:146 | Sending the error's text succeeds exactly when the bot delivers it. The text about a non-200 reply names the code and the endpoint. |
| PollLoop.CorrectedCycleEscapesOnlyOnRefusal | homework.py:139-152 | With the corrected alert, an exception leaves the loop only when the bot refuses the alert. Successful cycles are unchanged. |
| PollLoop.CorrectedNon200ReplyKeepsPolling | homework.py:139-152 | With the corrected alert, a delivered alert about a non-200 reply keeps the loop polling from the same cursor. |

## Left out

- `requests.get`, the HTTP headers and the encoding of `from_date` in the query string are not modelled. The model sees only the reply's status code and decoded body, or a connection failure.
- The Telegram bot is reduced to one outcome per send. Sends beyond the outcomes given to a cycle count as delivered. The chat id is not checked by the model.
- `load_dotenv` and `os.getenv` are not modelled. The three variables are parameters.
- `time.time` and `time.sleep` are not modelled. The clock is a parameter, and sleeps are only counted.
- The logger and its setup are not modelled. Only the preview text of the success log line is.
- The endless `while True` is modelled one pass at a time, by `Poller.RunCycle` and `PollCycle`.
- `sys.exit` is the `Exited` result of startup.
- CheckField: the ApiJsonTypeError message keeps only its first half. The second half prints the value converted by the shadowed `list(...)` or `int(...)`. The model does decide from that conversion whether ApiJsonTypeError or the conversion's own error is raised.
- ShadowedConversion: `int` of a string is modelled by IsIntLiteral: an optional sign followed by ASCII digits. Python also accepts surrounding whitespace, underscores between digits and non-ASCII digits, and those strings are treated here as failing.
- PyStr: lists and dicts print as `[...]` and `{...}` markers, not Python's repr. Floats print by the repr they were decoded with.
- Truthy: a float is falsy only when its repr is `0.0` or `-0.0`.
- ArgsTupleText: quotes inside the url are not escaped the way Python's repr would escape them.
- SendMessage: the model does not say whether the bot library accepts an exception object as text. It takes the bot's outcome as given and then fails at the log slice, so the call raises either way.
- GetApiAnswer: the decoder's error text for a body that is not JSON is given with the reply, not computed.

## Findings

| source | as written | input that shows it | evidently intended | confidence | as-written member | corrected member |
|---|---|---|---|---|---|---|
| homework.py:146 | `send_message(bot, error)` passes the exception object. `message[:40]` then raises TypeError, so the alert for ApiJsonKeyError, StatusCodeNot200, UnknownHomeworkStatus and ApiJsonTypeError always fails. ApiJsonTypeError is raised only when the shadowed conversion at line 47 succeeds, for example a str or dict under `homeworks`. Its exception escapes `while True` and ends the bot. | an API reply with HTTP status 503 | send the error's text and keep polling once the bot delivers it | not executed | PollLoop.Non200ReplyEndsLoop | PollLoop.CorrectedNon200ReplyKeepsPolling |
