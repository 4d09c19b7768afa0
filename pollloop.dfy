/** The control flow of `main` (homework.py): the startup checks, then the
    poll cycle that fetches, validates, notifies once per homework in order,
    moves the cursor only when all of that succeeded, and alerts about any
    failure. Clock, HTTP reply and bot outcomes are inputs; the sleep is a
    counted step and `sys.exit` a terminal result. */
module PollLoop {
  import opened TextUtil
  import opened Json
  import opened Exceptions
  import opened Homework

  /** How the bot answers the `n`-th send of a cycle. Sends beyond the end
      of the given outcomes are delivered. */
  function OutcomeAt(outcomes: seq<SendOutcome>, n: nat): (o: SendOutcome)
    ensures n >= |outcomes| ==> o == Delivered
  {
    if n < |outcomes| then outcomes[n] else Delivered
  }

  // ---------------------------------------------------------------------
  // Startup

  /** What `telegram.Bot(token=...)` did. */
  datatype BotInit = BotReady | BotInitFailed(message: string)

  /** Startup either reaches the loop or logs a critical error and exits. */
  datatype StartupResult = Started | Exited(reason: Error)

  const MissingEnvMessage: string := "Проверьте существование переменных окружения!"
  const StartupGreeting: string := "Бот запущен!"

  /** The `try` block before the loop: check the secrets, build the bot,
      send the greeting; every exception ends in `sys.exit`. */
  function Startup(practicumToken: Option<string>, telegramToken: Option<string>,
                   chatId: Option<string>, bot: BotInit, greeting: SendOutcome): (r: StartupResult)
    ensures r.Started? <==>
      CheckTokens(practicumToken, telegramToken, chatId) && bot.BotReady? && greeting.Delivered?
    ensures !CheckTokens(practicumToken, telegramToken, chatId) ==>
      r == Exited(EnvVarDoesNotExist(MissingEnvMessage))
    ensures CheckTokens(practicumToken, telegramToken, chatId) && bot.BotInitFailed? ==>
      r == Exited(OtherError(bot.message))
    ensures CheckTokens(practicumToken, telegramToken, chatId) && bot.BotReady? && greeting.Unauthorized? ==>
      r.Exited? && r.reason.TelegramTokenError?
  {
    if !CheckTokens(practicumToken, telegramToken, chatId) then
      Exited(EnvVarDoesNotExist(MissingEnvMessage))
    else match bot
      case BotInitFailed(m) => Exited(OtherError(m))
      case BotReady =>
        match SendMessage(Text(StartupGreeting), greeting)
        case Raised(e) => Exited(e)
        case Ok(_) => Started
  }

  // ---------------------------------------------------------------------
  // The notification loop of one cycle

  /** The messages handed to the bot, and how the loop ended. */
  datatype LoopResult = LoopResult(attempted: seq<MessageArg>, outcome: Result<()>)

  /** One iteration of the loop body: parse the homework, then send the
      notification; the message handed to the bot (if any) and the exception
      raised (if any). */
  function NotifyOne(homework: Json, outcome: SendOutcome): (r: LoopResult)
    ensures |r.attempted| <= 1
    ensures r.attempted != [] <==> ParseStatus(homework).Ok?
    ensures r.attempted != [] ==> r.attempted[0] == Text(ParseStatus(homework).value)
    ensures r.outcome.Ok? <==> ParseStatus(homework).Ok? && outcome.Delivered?
    ensures ParseStatus(homework).Raised? ==> r.outcome == Raised(ParseStatus(homework).error)
    ensures ParseStatus(homework).Ok? && !outcome.Delivered? ==>
      r.outcome == Raised(SendMessage(Text(ParseStatus(homework).value), outcome).error)
  {
    match ParseStatus(homework)
    case Raised(e) => LoopResult([], Raised(e))
    case Ok(text) =>
      match SendMessage(Text(text), outcome)
      case Raised(e) => LoopResult([Text(text)], Raised(e))
      case Ok(_) => LoopResult([Text(text)], Ok(()))
  }

  /** `prefix` already handed to the bot, followed by the rest of the loop. */
  function After(prefix: seq<MessageArg>, rest: LoopResult): LoopResult {
    LoopResult(prefix + rest.attempted, rest.outcome)
  }

  /** The result of every iteration, side by side: an iteration depends only
      on its own homework and on how the bot answered its send. */
  function Steps(homeworks: seq<Json>, outcomes: seq<SendOutcome>): (r: seq<LoopResult>)
    ensures |r| == |homeworks|
    ensures forall j :: 0 <= j < |homeworks| ==> r[j] == NotifyOne(homeworks[j], OutcomeAt(outcomes, j))
  {
    seq(|homeworks|, j requires 0 <= j < |homeworks| => NotifyOne(homeworks[j], OutcomeAt(outcomes, j)))
  }

  /** The loop from iteration `i` on: it stops at the first iteration that raised. */
  function RunSteps(steps: seq<LoopResult>, i: nat): LoopResult
    requires i <= |steps|
    decreases |steps| - i
  {
    if i == |steps| then LoopResult([], Ok(()))
    else if steps[i].outcome.Raised? then steps[i]
    else After(steps[i].attempted, RunSteps(steps, i + 1))
  }

  /** `for homework in homeworks: send_message(bot, parse_status(homework))`. */
  function SendLoop(homeworks: seq<Json>, outcomes: seq<SendOutcome>): LoopResult {
    RunSteps(Steps(homeworks, outcomes), 0)
  }

  /** Each iteration hands the bot at most one message, and exactly one when
      it completes. */
  predicate WellShaped(steps: seq<LoopResult>) {
    forall j :: 0 <= j < |steps| ==>
      |steps[j].attempted| <= 1 && (steps[j].outcome.Ok? ==> |steps[j].attempted| == 1)
  }

  lemma {:induction false} RunStepsLength(steps: seq<LoopResult>, i: nat)
    requires i <= |steps| && WellShaped(steps)
    ensures |RunSteps(steps, i).attempted| <= |steps| - i
    decreases |steps| - i
  {
    if i < |steps| && steps[i].outcome.Ok? {
      RunStepsLength(steps, i + 1);
    }
  }

  /** The `k`-th message handed to the bot comes from iteration `i + k`. */
  lemma {:induction false} RunStepsAttemptAt(steps: seq<LoopResult>, i: nat, j: nat)
    requires WellShaped(steps) && i <= j < |steps|
    requires j - i < |RunSteps(steps, i).attempted|
    ensures steps[j].attempted != [] && RunSteps(steps, i).attempted[j - i] == steps[j].attempted[0]
    decreases j - i
  {
    if steps[i].outcome.Ok? && j > i {
      var rest := RunSteps(steps, i + 1);
      assert RunSteps(steps, i).attempted == steps[i].attempted + rest.attempted;
      RunStepsAttemptAt(steps, i + 1, j);
    }
  }

  lemma {:induction false} RunStepsCompletes(steps: seq<LoopResult>, i: nat)
    requires i <= |steps| && WellShaped(steps)
    ensures RunSteps(steps, i).outcome.Ok? <==> forall j :: i <= j < |steps| ==> steps[j].outcome.Ok?
    ensures RunSteps(steps, i).outcome.Ok? ==> |RunSteps(steps, i).attempted| == |steps| - i
    decreases |steps| - i
  {
    if i < |steps| && steps[i].outcome.Ok? {
      RunStepsCompletes(steps, i + 1);
    }
  }

  /** A loop that raised stopped at its first failing iteration `k`: every
      earlier iteration completed and handed the bot one message, and the
      loop's exception is iteration `k`'s. */
  lemma {:induction false} RunStepsFirstFailure(steps: seq<LoopResult>, i: nat)
    requires i <= |steps| && WellShaped(steps)
    requires RunSteps(steps, i).outcome.Raised?
    ensures exists k :: (i <= k < |steps|
      && (forall j :: i <= j < k ==> steps[j].outcome.Ok?)
      && RunSteps(steps, i).outcome == steps[k].outcome
      && |RunSteps(steps, i).attempted| == k - i + |steps[k].attempted|)
    decreases |steps| - i
  {
    if steps[i].outcome.Ok? {
      RunStepsFirstFailure(steps, i + 1);
      var k :| i + 1 <= k < |steps|
        && (forall j :: i + 1 <= j < k ==> steps[j].outcome.Ok?)
        && RunSteps(steps, i + 1).outcome == steps[k].outcome
        && |RunSteps(steps, i + 1).attempted| == k - (i + 1) + |steps[k].attempted|;
      assert |RunSteps(steps, i).attempted| == 1 + |RunSteps(steps, i + 1).attempted|;
      assert forall j :: i <= j < k ==> steps[j].outcome.Ok?;
    } else {
      assert RunSteps(steps, i) == steps[i];
    }
  }

  /** The messages handed to the bot are the notifications for the first
      homeworks, in list order. */
  lemma SendLoopNotifications(homeworks: seq<Json>, outcomes: seq<SendOutcome>)
    ensures var r := SendLoop(homeworks, outcomes);
      && |r.attempted| <= |homeworks|
      && (forall j :: 0 <= j < |r.attempted| ==>
            ParseStatus(homeworks[j]).Ok? && r.attempted[j] == Text(ParseStatus(homeworks[j]).value))
  {
    var steps := Steps(homeworks, outcomes);
    var r := RunSteps(steps, 0);
    RunStepsLength(steps, 0);
    forall j | 0 <= j < |r.attempted|
      ensures ParseStatus(homeworks[j]).Ok? && r.attempted[j] == Text(ParseStatus(homeworks[j]).value)
    {
      RunStepsAttemptAt(steps, 0, j);
    }
  }

  /** The loop completes exactly when every status is known and every send
      delivered, and then it has sent one message per homework. */
  lemma SendLoopCompletion(homeworks: seq<Json>, outcomes: seq<SendOutcome>)
    ensures var r := SendLoop(homeworks, outcomes);
      && (r.outcome.Ok? <==>
            forall j :: 0 <= j < |homeworks| ==> ParseStatus(homeworks[j]).Ok? && OutcomeAt(outcomes, j).Delivered?)
      && (r.outcome.Ok? ==> |r.attempted| == |homeworks|)
  {
    var steps := Steps(homeworks, outcomes);
    RunStepsCompletes(steps, 0);
    assert forall j :: 0 <= j < |homeworks| ==>
      (steps[j].outcome.Ok? <==> ParseStatus(homeworks[j]).Ok? && OutcomeAt(outcomes, j).Delivered?);
  }

  /** The loop hands the bot one notification per homework, in list order;
      it completes exactly when every status is known and every send
      delivered. */
  lemma SendLoopMeaning(homeworks: seq<Json>, outcomes: seq<SendOutcome>)
    ensures var r := SendLoop(homeworks, outcomes);
      && |r.attempted| <= |homeworks|
      && (forall j :: 0 <= j < |r.attempted| ==>
            ParseStatus(homeworks[j]).Ok? && r.attempted[j] == Text(ParseStatus(homeworks[j]).value))
      && (r.outcome.Ok? <==>
            forall j :: 0 <= j < |homeworks| ==> ParseStatus(homeworks[j]).Ok? && OutcomeAt(outcomes, j).Delivered?)
      && (r.outcome.Ok? ==> |r.attempted| == |homeworks|)
  {
    SendLoopNotifications(homeworks, outcomes);
    SendLoopCompletion(homeworks, outcomes);
  }

  /** A loop that raised stopped at the first homework `k` that failed to
      parse or to send: every homework before it was parsed and delivered,
      the loop's exception is the one homework `k` raised, and the bot was
      handed `k` notifications, plus homework `k`'s own when its status parsed. */
  lemma SendLoopFirstFailure(homeworks: seq<Json>, outcomes: seq<SendOutcome>)
    requires SendLoop(homeworks, outcomes).outcome.Raised?
    ensures var r := SendLoop(homeworks, outcomes);
      exists k :: (0 <= k < |homeworks|
        && (forall j :: 0 <= j < k ==> ParseStatus(homeworks[j]).Ok? && OutcomeAt(outcomes, j).Delivered?)
        && r.outcome == NotifyOne(homeworks[k], OutcomeAt(outcomes, k)).outcome
        && |r.attempted| == k + (if ParseStatus(homeworks[k]).Ok? then 1 else 0))
  {
    var steps := Steps(homeworks, outcomes);
    var r := RunSteps(steps, 0);
    RunStepsFirstFailure(steps, 0);
    var k :| 0 <= k < |steps|
      && (forall j :: 0 <= j < k ==> steps[j].outcome.Ok?)
      && r.outcome == steps[k].outcome
      && |r.attempted| == k + |steps[k].attempted|;
    forall j | 0 <= j < k
      ensures ParseStatus(homeworks[j]).Ok? && OutcomeAt(outcomes, j).Delivered?
    {
      assert steps[j].outcome.Ok?;
    }
    assert |steps[k].attempted| == (if ParseStatus(homeworks[k]).Ok? then 1 else 0);
    assert r.outcome == NotifyOne(homeworks[k], OutcomeAt(outcomes, k)).outcome;
  }

  lemma AfterAssoc(a: seq<MessageArg>, b: seq<MessageArg>, rest: LoopResult)
    ensures After(a, After(b, rest)) == After(a + b, rest)
  {
    assert a + (b + rest.attempted) == a + b + rest.attempted;
  }

  /** What the loop still has to do from iteration `i`, or the exception
      that already stopped it. */
  function Remaining(steps: seq<LoopResult>, i: nat, failure: Option<Error>): LoopResult
    requires i <= |steps|
  {
    if failure.Some? then LoopResult([], Raised(failure.value)) else RunSteps(steps, i)
  }

  /** The `for homework in homeworks` loop of a cycle: parse, then send,
      stopping at the first exception. */
  method NotifyAll(homeworks: seq<Json>, outcomes: seq<SendOutcome>)
    returns (attempted: seq<MessageArg>, failure: Option<Error>)
    ensures SendLoop(homeworks, outcomes) ==
      LoopResult(attempted, if failure.Some? then Raised(failure.value) else Ok(()))
  {
    ghost var steps := Steps(homeworks, outcomes);
    attempted, failure := [], None;
    var i := 0;
    while i < |homeworks| && failure.None?
      invariant 0 <= i <= |homeworks|
      invariant SendLoop(homeworks, outcomes) == After(attempted, Remaining(steps, i, failure))
    {
      var step := NotifyOne(homeworks[i], OutcomeAt(outcomes, i));
      assert step == steps[i];
      AfterAssoc(attempted, step.attempted, RunSteps(steps, i + 1));
      attempted := attempted + step.attempted;
      if step.outcome.Raised? {
        failure := Some(step.outcome.error);
      }
      i := i + 1;
    }
    assert Remaining(steps, i, failure).attempted == [];
    assert attempted + [] == attempted;
  }

  // ---------------------------------------------------------------------
  // One cycle

  /** The `try` body: sends made, and the new cursor or the exception. */
  datatype TryResult = TryResult(attempted: seq<MessageArg>, outcome: Result<Json>)

  function TryBody(reply: HttpReply, outcomes: seq<SendOutcome>): TryResult {
    match GetApiAnswer(reply)
    case Raised(e) => TryResult([], Raised(e))
    case Ok(response) =>
      match CheckResponse(response)
      case Raised(e) => TryResult([], Raised(e))
      case Ok(homeworks) =>
        var loop := SendLoop(homeworks, outcomes);
        if loop.outcome.Raised? then TryResult(loop.attempted, Raised(loop.outcome.error))
        else TryResult(loop.attempted, Ok(response.fields["current_date"]))
  }

  /** The classes of the first `except` clause, whose handler passes the
      exception object itself to send_message. */
  predicate IsReportedError(e: Error) {
    e.ApiJsonKeyError? || e.ApiJsonTypeError? || e.StatusCodeNot200? || e.UnknownHomeworkStatus?
  }

  const FailurePrefix: string := "Сбой в работе программы: "

  /** What the `except` clauses hand to send_message, as written. */
  function AlertArg(e: Error): MessageArg {
    if IsReportedError(e) then ErrorObject(e) else Text(FailurePrefix + Str(e))
  }

  /** The result of one pass of the `while True` body, `finally` included:
      the `from_date` requested, every message handed to the bot, the cursor
      afterwards, the exception caught, and the exception that escaped the
      loop because the alert about it failed. */
  datatype CycleResult = CycleResult(
    query: Json,
    attempted: seq<MessageArg>,
    cursor: Json,
    failure: Option<Error>,
    escaped: Option<Error>)

  /** One cycle whose `except` clauses hand `alert(e)` to send_message. */
  function CycleWith(alert: Error -> MessageArg, cursor: Json, now: int, reply: HttpReply,
                     outcomes: seq<SendOutcome>): CycleResult {
    var query := FromDate(cursor, now);
    var body := TryBody(reply, outcomes);
    match body.outcome
    case Ok(next) => CycleResult(query, body.attempted, next, None, None)
    case Raised(e) =>
      var alert := alert(e);
      var reported := SendMessage(alert, OutcomeAt(outcomes, |body.attempted|));
      CycleResult(query, body.attempted + [alert], cursor, Some(e),
                  if reported.Raised? then Some(reported.error) else None)
  }

  /** One cycle as written. */
  function PollCycle(cursor: Json, now: int, reply: HttpReply, outcomes: seq<SendOutcome>): CycleResult {
    CycleWith(AlertArg, cursor, now, reply, outcomes)
  }

  /** The notifications for a list of homeworks with known statuses, in order. */
  predicate NotifiesInOrder(attempted: seq<MessageArg>, homeworks: seq<Json>) {
    && |attempted| == |homeworks|
    && forall k :: 0 <= k < |homeworks| ==>
         KnownHomework(homeworks[k])
         && attempted[k] == Text(StatusMessage(PyStr(homeworks[k].fields["homework_name"]),
                                               HomeworkStatuses[homeworks[k].fields["status"].s]))
  }

  /** A cycle succeeds exactly when the reply is accepted, every status is
      known and every send is delivered; then each homework gets one
      notification, in list order, nothing else is sent, and the cursor
      becomes `current_date`. */
  lemma CycleSuccess(cursor: Json, now: int, reply: HttpReply, outcomes: seq<SendOutcome>)
    ensures var r := PollCycle(cursor, now, reply, outcomes);
      r.failure.None? <==>
        && GetApiAnswer(reply).Ok?
        && CheckResponse(GetApiAnswer(reply).value).Ok?
        && var homeworks := CheckResponse(GetApiAnswer(reply).value).value;
           forall j :: 0 <= j < |homeworks| ==> KnownHomework(homeworks[j]) && OutcomeAt(outcomes, j).Delivered?
    ensures var r := PollCycle(cursor, now, reply, outcomes);
      r.failure.None? ==>
        && r.escaped.None?
        && r.cursor == GetApiAnswer(reply).value.fields["current_date"]
        && NotifiesInOrder(r.attempted, GetApiAnswer(reply).value.fields["homeworks"].items)
  {
    var r := PollCycle(cursor, now, reply, outcomes);
    var answer := GetApiAnswer(reply);
    if answer.Ok? && CheckResponse(answer.value).Ok? {
      var homeworks := CheckResponse(answer.value).value;
      var loop := SendLoop(homeworks, outcomes);
      SendLoopMeaning(homeworks, outcomes);
      if loop.outcome.Ok? {
        forall k | 0 <= k < |homeworks|
          ensures KnownHomework(homeworks[k])
          ensures r.attempted[k] == Text(StatusMessage(PyStr(homeworks[k].fields["homework_name"]),
                                                       HomeworkStatuses[homeworks[k].fields["status"].s]))
        {
          assert ParseStatus(homeworks[k]).Ok?;
        }
      }
    }
  }

  /** An empty homework list in an accepted reply sends nothing and still
      moves the cursor to `current_date`. */
  lemma EmptyHomeworksAdvanceCursor(cursor: Json, now: int, fields: map<string, Json>, outcomes: seq<SendOutcome>)
    requires "homeworks" in fields && fields["homeworks"] == JList([])
    requires "current_date" in fields && IsPyInt(fields["current_date"])
    ensures var r := PollCycle(cursor, now, Reply(HttpOk, JsonBody(JObject(fields))), outcomes);
      r.attempted == [] && r.cursor == fields["current_date"] && r.failure.None? && r.escaped.None?
  {
  }

  /** A worked example: cursor 1000, one approved homework "Proj1" and
      `current_date` 1600 give one notification and move the cursor to 1600. */
  lemma ApprovedHomeworkScenario(outcomes: seq<SendOutcome>)
    requires OutcomeAt(outcomes, 0).Delivered?
    ensures var homework := JObject(map["homework_name" := JStr("Proj1"), "status" := JStr("approved")]);
      var body := JObject(map["homeworks" := JList([homework]), "current_date" := JInt(1600)]);
      var r := PollCycle(JInt(1000), 5000, Reply(HttpOk, JsonBody(body)), outcomes);
      && r.query == JInt(1000)
      && r.attempted == [Text("Изменился статус проверки работы \"Proj1\". " + ApprovedVerdict)]
      && r.cursor == JInt(1600)
      && r.escaped.None?
  {
    var homework := JObject(map["homework_name" := JStr("Proj1"), "status" := JStr("approved")]);
    var body := JObject(map["homeworks" := JList([homework]), "current_date" := JInt(1600)]);
    var reply := Reply(HttpOk, JsonBody(body));
    assert body.fields["homeworks"] == JList([homework]);
    assert GetApiAnswer(reply) == Ok(body);
    assert ValidResponse(body);
    assert KnownHomework(homework);
    CycleSuccess(JInt(1000), 5000, reply, outcomes);
    var r := PollCycle(JInt(1000), 5000, reply, outcomes);
    assert r.failure.None?;
    assert |r.attempted| == 1;
    assert r.attempted[0] == Text(StatusMessage("Proj1", ApprovedVerdict));
    assert StatusMessage("Proj1", ApprovedVerdict) == "Изменился статус проверки работы \"Proj1\". " + ApprovedVerdict;
    assert r.attempted == [Text("Изменился статус проверки работы \"Proj1\". " + ApprovedVerdict)];
    assert r.cursor == JInt(1600);
    assert r.escaped.None?;
    assert r.query == JInt(1000);
  }

  /** A failed cycle keeps the cursor and hands the bot exactly one alert,
      after the notifications sent before the failure: none when the reply
      was refused before the loop, otherwise the notifications for the
      homeworks in list order. */
  lemma {:induction false} FailedCycleKeepsCursor(cursor: Json, now: int, reply: HttpReply, outcomes: seq<SendOutcome>)
    ensures var r := PollCycle(cursor, now, reply, outcomes);
      r.failure.Some? ==>
        && r.cursor == cursor
        && r.attempted == TryBody(reply, outcomes).attempted + [AlertArg(r.failure.value)]
    ensures var r := PollCycle(cursor, now, reply, outcomes);
      r.failure.Some? && (GetApiAnswer(reply).Raised? || CheckResponse(GetApiAnswer(reply).value).Raised?) ==>
        r.attempted == [AlertArg(r.failure.value)]
    ensures var r := PollCycle(cursor, now, reply, outcomes);
      r.failure.Some? && GetApiAnswer(reply).Ok? && CheckResponse(GetApiAnswer(reply).value).Ok? ==>
        var homeworks := CheckResponse(GetApiAnswer(reply).value).value;
        forall k :: 0 <= k < |r.attempted| - 1 ==>
          k < |homeworks| && ParseStatus(homeworks[k]).Ok?
          && r.attempted[k] == Text(ParseStatus(homeworks[k]).value)
  {
    var answer := GetApiAnswer(reply);
    if answer.Ok? && CheckResponse(answer.value).Ok? {
      var homeworks := CheckResponse(answer.value).value;
      SendLoopMeaning(homeworks, outcomes);
    }
  }

  /** The exception a failed cycle reports is the one that stopped the `try`
      body: the request's, the response check's, or that of the first
      homework that failed to parse or to send. In the last case every
      earlier homework was notified and delivered, and the bot was handed
      those notifications, that homework's own when its status parsed, and
      the alert. */
  lemma FailedCycleCause(cursor: Json, now: int, reply: HttpReply, outcomes: seq<SendOutcome>)
    ensures var r := PollCycle(cursor, now, reply, outcomes);
      r.failure.Some? && GetApiAnswer(reply).Raised? ==> r.failure == Some(GetApiAnswer(reply).error)
    ensures var r := PollCycle(cursor, now, reply, outcomes);
      r.failure.Some? && GetApiAnswer(reply).Ok? && CheckResponse(GetApiAnswer(reply).value).Raised? ==>
        r.failure == Some(CheckResponse(GetApiAnswer(reply).value).error)
    ensures var r := PollCycle(cursor, now, reply, outcomes);
      r.failure.Some? && GetApiAnswer(reply).Ok? && CheckResponse(GetApiAnswer(reply).value).Ok? ==>
        var homeworks := CheckResponse(GetApiAnswer(reply).value).value;
        exists k :: (0 <= k < |homeworks|
          && (forall j :: 0 <= j < k ==> ParseStatus(homeworks[j]).Ok? && OutcomeAt(outcomes, j).Delivered?)
          && Raised(r.failure.value) == NotifyOne(homeworks[k], OutcomeAt(outcomes, k)).outcome
          && |r.attempted| - 1 == k + (if ParseStatus(homeworks[k]).Ok? then 1 else 0))
  {
    var answer := GetApiAnswer(reply);
    if answer.Ok? && CheckResponse(answer.value).Ok? {
      var homeworks := CheckResponse(answer.value).value;
      if SendLoop(homeworks, outcomes).outcome.Raised? {
        SendLoopFirstFailure(homeworks, outcomes);
      }
    }
  }

  /** A worked example: an approved homework "a" followed by one whose
      status "in_review" is not in the table. The bot gets the notification
      for "a", then the cycle fails with UnknownHomeworkStatus naming the
      status; the cursor stays and, as written, the alert ends the loop. */
  lemma UnknownStatusScenario(outcomes: seq<SendOutcome>)
    requires OutcomeAt(outcomes, 0).Delivered?
    ensures var a := JObject(map["homework_name" := JStr("a"), "status" := JStr("approved")]);
      var b := JObject(map["homework_name" := JStr("b"), "status" := JStr("in_review")]);
      var body := JObject(map["homeworks" := JList([a, b]), "current_date" := JInt(1600)]);
      var r := PollCycle(JInt(1000), 5000, Reply(HttpOk, JsonBody(body)), outcomes);
      && r.failure == Some(UnknownHomeworkStatus(UnknownStatusText(JStr("in_review"))))
      && r.attempted == [Text(StatusMessage("a", ApprovedVerdict)),
                         ErrorObject(UnknownHomeworkStatus(UnknownStatusText(JStr("in_review"))))]
      && r.cursor == JInt(1000)
      && r.escaped.Some?
  {
    var a := JObject(map["homework_name" := JStr("a"), "status" := JStr("approved")]);
    var b := JObject(map["homework_name" := JStr("b"), "status" := JStr("in_review")]);
    var body := JObject(map["homeworks" := JList([a, b]), "current_date" := JInt(1600)]);
    var reply := Reply(HttpOk, JsonBody(body));
    var e := UnknownHomeworkStatus(UnknownStatusText(JStr("in_review")));
    assert GetApiAnswer(reply) == Ok(body);
    assert body.fields["homeworks"] == JList([a, b]);
    assert ValidResponse(body);
    assert KnownHomework(a);
    assert "in_review" !in HomeworkStatuses;
    assert ParseStatus(b) == Raised(e);
    var steps := Steps([a, b], outcomes);
    assert steps[1] == LoopResult([], Raised(e));
    assert steps[0] == LoopResult([Text(StatusMessage("a", ApprovedVerdict))], Ok(()));
    assert RunSteps(steps, 1) == LoopResult([], Raised(e));
    assert SendLoop([a, b], outcomes) == LoopResult([Text(StatusMessage("a", ApprovedVerdict))], Raised(e));
    ReportedErrorAlertAlwaysRaises(e, OutcomeAt(outcomes, 1));
  }

  /** Whatever the reply, the cursor stays a Python int (or bool). */
  lemma CycleKeepsCursorInt(cursor: Json, now: int, reply: HttpReply, outcomes: seq<SendOutcome>)
    requires IsPyInt(cursor)
    ensures IsPyInt(PollCycle(cursor, now, reply, outcomes).cursor)
    ensures IsPyInt(PollCycle(cursor, now, reply, outcomes).query)
  {
  }

  // ---------------------------------------------------------------------
  // The running loop

  /** The state `main` keeps once startup succeeded: the cursor
      `current_timestamp`, whether `while True` is still running, and, as
      observations, the `from_date` of every request, everything handed to
      the bot and the number of sleeps. */
  class Poller {
    var cursor: Json
    var running: bool
    var queries: seq<Json>
    var sent: seq<MessageArg>
    var sleeps: nat

    /** The cursor holds a Python int, and every cycle made one request and
        one sleep. */
    ghost predicate Valid()
      reads this
    {
      IsPyInt(cursor) && |queries| == sleeps
    }

    /** `current_timestamp = int(time.time())` after a successful startup. */
    constructor (now: int)
      ensures Valid()
      ensures cursor == JInt(now) && running
      ensures queries == [] && sent == [] && sleeps == 0
    {
      cursor := JInt(now);
      running := true;
      queries := [];
      sent := [];
      sleeps := 0;
    }

    /** One pass of the `while True` body, `finally: time.sleep` included. */
    method RunCycle(now: int, reply: HttpReply, outcomes: seq<SendOutcome>)
      requires Valid() && running
      modifies this
      ensures Valid()
      ensures var r := PollCycle(old(cursor), now, reply, outcomes);
        && cursor == r.cursor
        && running == r.escaped.None?
        && queries == old(queries) + [r.query]
        && sent == old(sent) + r.attempted
        && sleeps == old(sleeps) + 1
    {
      queries := queries + [FromDate(cursor, now)];
      var failure: Option<Error> := None;
      var attempted: seq<MessageArg> := [];
      var answer := GetApiAnswer(reply);
      if answer.Raised? {
        failure := Some(answer.error);
      } else {
        var checked := CheckResponse(answer.value);
        if checked.Raised? {
          failure := Some(checked.error);
        } else {
          attempted, failure := NotifyAll(checked.value, outcomes);
          sent := sent + attempted;
          if failure.None? {
            cursor := answer.value.fields["current_date"];
          }
        }
      }
      if failure.Some? {
        var alert := AlertArg(failure.value);
        var reported := SendMessage(alert, OutcomeAt(outcomes, |attempted|));
        sent := sent + [alert];
        running := reported.Ok?;
      }
      sleeps := sleeps + 1;
    }
  }

  // ---------------------------------------------------------------------
  // The alert for the reported errors (lines 139-146)

  /** As written, the alert for ApiJsonKeyError, ApiJsonTypeError,
      StatusCodeNot200 and UnknownHomeworkStatus can never succeed: the bot
      is handed the exception object, and slicing it for the log raises even
      when the bot accepts it. */
  lemma ReportedErrorAlertAlwaysRaises(e: Error, outcome: SendOutcome)
    requires IsReportedError(e)
    ensures SendMessage(AlertArg(e), outcome).Raised?
  {
  }

  /** Hence a non-200 reply ends the loop after its sleep: the alert's
      exception escapes `while True`. */
  lemma Non200ReplyEndsLoop(cursor: Json, now: int, code: int, body: Body, outcomes: seq<SendOutcome>)
    requires code != HttpOk
    ensures var r := PollCycle(cursor, now, Reply(code, body), outcomes);
      && r.failure == Some(StatusCodeNot200(code, Endpoint))
      && r.cursor == cursor
      && r.attempted == [ErrorObject(StatusCodeNot200(code, Endpoint))]
      && r.escaped.Some?
  {
    ReportedErrorAlertAlwaysRaises(StatusCodeNot200(code, Endpoint), OutcomeAt(outcomes, 0));
  }

  /** A scalar under `homeworks` (null, a bool, a number) makes the shadowed
      `list(...)` raise TypeError while the ApiJsonTypeError message is being
      formatted. That TypeError reaches the generic clause, whose alert is
      text: the loop keeps polling from the same cursor once the bot
      delivers it. */
  lemma ScalarHomeworksKeepsPolling(cursor: Json, now: int, fields: map<string, Json>, outcomes: seq<SendOutcome>)
    requires "homeworks" in fields
    requires fields["homeworks"].JNull? || fields["homeworks"].JBool? || fields["homeworks"].JInt? || fields["homeworks"].JFloat?
    requires OutcomeAt(outcomes, 0).Delivered?
    ensures var r := PollCycle(cursor, now, Reply(HttpOk, JsonBody(JObject(fields))), outcomes);
      && r.failure.Some? && r.failure.value.OtherError?
      && r.cursor == cursor
      && r.attempted == [Text(FailurePrefix + r.failure.value.message)]
      && r.escaped.None?
  {
    CheckResponseKeyOrder(fields);
  }

  /** A string or an object under `homeworks` survives the shadowed
      `list(...)`, so ApiJsonTypeError is raised, and its alert ends the loop. */
  lemma TextHomeworksEndsLoop(cursor: Json, now: int, fields: map<string, Json>, outcomes: seq<SendOutcome>)
    requires "homeworks" in fields
    requires fields["homeworks"].JStr? || fields["homeworks"].JObject?
    ensures var r := PollCycle(cursor, now, Reply(HttpOk, JsonBody(JObject(fields))), outcomes);
      && r.failure == Some(ApiJsonTypeError(TypeMismatchText("homeworks", ListClass)))
      && r.cursor == cursor
      && r.escaped.Some?
  {
    CheckResponseKeyOrder(fields);
    ReportedErrorAlertAlwaysRaises(ApiJsonTypeError(TypeMismatchText("homeworks", ListClass)), OutcomeAt(outcomes, 0));
  }

  /** The evident intent: send the error's text. */
  function CorrectedAlertArg(e: Error): MessageArg {
    Text(if IsReportedError(e) then Str(e) else FailurePrefix + Str(e))
  }

  /** With the text sent, the alert succeeds exactly when the bot delivers
      it, and the alert about a non-200 reply names the code and the endpoint. */
  lemma CorrectedAlertDelivered(e: Error, outcome: SendOutcome)
    ensures SendMessage(CorrectedAlertArg(e), outcome).Ok? <==> outcome.Delivered?
    ensures e.StatusCodeNot200? ==>
      IsInfix(e.url, CorrectedAlertArg(e).text) && IsInfix(IntText(e.statusCode), CorrectedAlertArg(e).text)
  {
    if e.StatusCodeNot200? {
      StatusCodeNot200TextMentions(e.statusCode, e.url);
    }
  }

  /** One cycle with the corrected alert. */
  function CorrectedPollCycle(cursor: Json, now: int, reply: HttpReply, outcomes: seq<SendOutcome>): CycleResult {
    CycleWith(CorrectedAlertArg, cursor, now, reply, outcomes)
  }

  /** With the corrected alert, the loop ends only when the bot refuses the
      alert itself; the successful cycles are the same as written. */
  lemma CorrectedCycleEscapesOnlyOnRefusal(cursor: Json, now: int, reply: HttpReply, outcomes: seq<SendOutcome>)
    ensures var r := CorrectedPollCycle(cursor, now, reply, outcomes);
      r.escaped.Some? <==> r.failure.Some? && !OutcomeAt(outcomes, |r.attempted| - 1).Delivered?
    ensures var r := CorrectedPollCycle(cursor, now, reply, outcomes);
      r.failure.None? ==> r == PollCycle(cursor, now, reply, outcomes)
  {
    var body := TryBody(reply, outcomes);
    if body.outcome.Raised? {
      CorrectedAlertDelivered(body.outcome.error, OutcomeAt(outcomes, |body.attempted|));
    }
  }

  /** With the corrected alert, a delivered alert about a non-200 reply keeps
      the loop polling from the same cursor. */
  lemma CorrectedNon200ReplyKeepsPolling(cursor: Json, now: int, code: int, body: Body, outcomes: seq<SendOutcome>)
    requires code != HttpOk
    requires OutcomeAt(outcomes, 0).Delivered?
    ensures var r := CorrectedPollCycle(cursor, now, Reply(code, body), outcomes);
      && r.failure == Some(StatusCodeNot200(code, Endpoint))
      && r.cursor == cursor
      && r.attempted == [Text(Str(StatusCodeNot200(code, Endpoint)))]
      && r.escaped.None?
  {
    CorrectedAlertDelivered(StatusCodeNot200(code, Endpoint), OutcomeAt(outcomes, 0));
  }
}
