/** The bot's error taxonomy (exceptions.py) and how each error turns into
    text. Every class either keeps Python's default `__str__` or overrides it
    with "the base message, or a fixed default when that is empty". */
module Exceptions {
  import opened TextUtil

  datatype Error =
    | EnvVarDoesNotExist(message: string)
    | StatusCodeNot200(statusCode: int, url: string)
    | ApiJsonKeyError(message: string)
    | ApiJsonTypeError(message: string)
    | UnknownHomeworkStatus(message: string)
    | TelegramTokenError(message: string)
    | TelegramChatIdError(message: string)
    | ResponseObjNotJson(message: string)
      /** Any exception outside the taxonomy (KeyError, TypeError,
          IndexError, a requests or telegram error), by its `str()`. */
    | OtherError(message: string)

  datatype Option<T> = None | Some(value: T)

  /** A computation that returns a value or raises. */
  datatype Result<T> = Ok(value: T) | Raised(error: Error)

  /** `BaseException.__str__`: the single constructor argument, or "" when
      there is none. StatusCodeNot200 is constructed with two arguments, so
      its base text is the printed tuple `(status_code, 'url')`. */
  function BaseText(e: Error): string {
    match e
    case StatusCodeNot200(code, url) => ArgsTupleText(code, url)
    case _ => e.message
  }

  /** `str((status_code, url))` for an int code and a url without quotes. */
  function ArgsTupleText(code: int, url: string): (r: string)
    ensures IsPrefix("(", r)
  {
    "(" + IntText(code) + ", '" + url + "')"
  }

  /** The classes that override `__str__`. */
  predicate HasCustomStr(e: Error) {
    e.EnvVarDoesNotExist? || e.StatusCodeNot200? || e.TelegramTokenError?
    || e.TelegramChatIdError? || e.ResponseObjNotJson?
  }

  /** The fixed text an overriding `__str__` falls back to. */
  function DefaultText(e: Error): (r: string)
    requires HasCustomStr(e)
    ensures r != ""
  {
    match e
    case EnvVarDoesNotExist(_) => "Проверьте наличие переменных окружения!"
    case StatusCodeNot200(code, url) =>
      "По адрессу " + url + " статус код: " + IntText(code) + ", ожидался 200!"
    case TelegramTokenError(_) => "Некорректный TELEGRAM_TOKEN!"
    case TelegramChatIdError(_) => "Некорректный TELEGRAM_CHAT_ID!"
    case ResponseObjNotJson(_) => "В ответе от сервиса пришел не json."
  }

  /** `str(e)`: an overriding class returns a non-empty base text unchanged
      and its default otherwise; the other classes return the base text. */
  function Str(e: Error): (r: string)
    ensures HasCustomStr(e) && BaseText(e) != "" ==> r == BaseText(e)
    ensures HasCustomStr(e) && BaseText(e) == "" ==> r == DefaultText(e)
    ensures HasCustomStr(e) ==> r != ""
    ensures !HasCustomStr(e) ==> r == BaseText(e)
  {
    if HasCustomStr(e) && BaseText(e) == "" then DefaultText(e) else BaseText(e)
  }

  /** Because StatusCodeNot200 always has two constructor arguments, its
      base text is never empty and its formatted default is never printed. */
  lemma StatusCodeNot200NeverFallsBack(code: int, url: string)
    ensures Str(StatusCodeNot200(code, url)) == ArgsTupleText(code, url)
    ensures Str(StatusCodeNot200(code, url)) != DefaultText(StatusCodeNot200(code, url))
  {
    var e := StatusCodeNot200(code, url);
    assert Str(e)[0] == '(';
    assert DefaultText(e)[0] == 'П';
  }

  /** The default text of StatusCodeNot200 names the url and the code and
      says that 200 was expected. */
  lemma StatusCodeNot200DefaultMentions(code: int, url: string)
    ensures var d := DefaultText(StatusCodeNot200(code, url));
      IsInfix(url, d) && IsInfix(IntText(code), d) && IsInfix("ожидался 200", d)
  {
    var d := DefaultText(StatusCodeNot200(code, url));
    InfixOfConcat("По адрессу ", url, " статус код: " + IntText(code) + ", ожидался 200!");
    assert d == "По адрессу " + url + " статус код: " + IntText(code) + ", ожидался 200!";
    assert "По адрессу " + url + " статус код: " + IntText(code) + ", ожидался 200!"
      == "По адрессу " + url + (" статус код: " + IntText(code) + ", ожидался 200!");
    InfixOfConcat("По адрессу " + url + " статус код: ", IntText(code), ", ожидался 200!");
    var head := "По адрессу " + url + " статус код: " + IntText(code);
    assert ", ожидался 200!" == ", " + "ожидался 200" + "!";
    assert d == head + ", " + "ожидался 200" + "!";
    InfixOfConcat(head + ", ", "ожидался 200", "!");
  }

  /** Both texts StatusCodeNot200 can print carry the status code and the url. */
  lemma StatusCodeNot200TextMentions(code: int, url: string)
    ensures IsInfix(url, Str(StatusCodeNot200(code, url)))
    ensures IsInfix(IntText(code), Str(StatusCodeNot200(code, url)))
  {
    InfixOfConcat("(" + IntText(code) + ", '", url, "')");
    assert ArgsTupleText(code, url) == "(" + IntText(code) + ", '" + url + "')";
    InfixOfConcat("(", IntText(code), ", '" + url + "')");
    assert ArgsTupleText(code, url) == "(" + IntText(code) + (", '" + url + "')");
  }
}
