/**
 * The pure parts of homework.py: the status table and the record formatter
 * (`parse_status`), the response shape check (`check_response`), the
 * credential check (`check_tokens`) and the outcome classification of the API
 * request (`get_api_answer`). The HTTP request itself is an input: the
 * transport's answer is a `Transport` value.
 */
module Homework {
  import opened Wrappers
  import opened Values

  /**
   * The exceptions that can leave a function of homework.py. The first five
   * are the project's own exception classes and the bot library's error;
   * `KeyError` and `TypeError` are the built-in ones the code lets escape.
   */
  datatype Error =
    | EnvVariablesNotAvailable
    | UnavailableApi(detail: string)
    | WrongAnswerFormat
    | UnknownHomeworkStatus
    | TelegramError(detail: string)
    | KeyError(key: string)
    | TypeError(detail: string)

  /** `str(error)`: the text an f-string shows for the exception. */
  function ErrorText(e: Error): string
  {
    match e
    case EnvVariablesNotAvailable => ""
    case UnavailableApi(detail) => detail
    case WrongAnswerFormat => ""
    case UnknownHomeworkStatus => ""
    case TelegramError(detail) => detail
    case KeyError(key) => "'" + key + "'"
    case TypeError(detail) => detail
  }

  // ---------------------------------------------------------------------------
  // parse_status
  // ---------------------------------------------------------------------------

  const Approved := "Работа проверена: ревьюеру всё понравилось. Ура!"
  const Reviewing := "Работа взята на проверку ревьюером."
  const Rejected := "Работа проверена: у ревьюера есть замечания."

  /** The verdict shown for each review status the API reports. */
  const HomeworkStatuses: map<string, string> :=
    map["approved" := Approved, "reviewing" := Reviewing, "rejected" := Rejected]

  /** The text around the homework name in a notification. */
  const NoticePrefix := "Изменился статус проверки работы \""
  const NoticeSeparator := "\". "

  /** The notification for a homework named `name` whose verdict is `verdict`. */
  function Notification(name: string, verdict: string): string
  {
    NoticePrefix + name + NoticeSeparator + verdict
  }

  /** A record `parse_status` accepts: both keys present and a known status. */
  predicate KnownRecord(homework: Value)
  {
    && homework.JDict?
    && "homework_name" in homework.fields
    && "status" in homework.fields
    && homework.fields["status"].JStr?
    && homework.fields["status"].s in HomeworkStatuses
  }

  /** Only lists and dictionaries cannot be used as a dictionary key. */
  predicate Hashable(v: Value)
  {
    !v.JList? && !v.JDict?
  }

  /** The `TypeError` raised by `value['homework_name']` on a value that is not a dictionary. */
  function SubscriptError(v: Value): Error
    requires !v.JDict?
  {
    TypeError(
      match v
      case JNull => "'NoneType' object is not subscriptable"
      case JBool(_) => "'bool' object is not subscriptable"
      case JInt(_) => "'int' object is not subscriptable"
      case JStr(_) => "string indices must be integers"
      case JList(_) => "list indices must be integers or slices, not str")
  }

  /** The `TypeError` raised by looking up an unhashable status in the table. */
  function UnhashableError(v: Value): Error
  {
    TypeError(if v.JList? then "unhashable type: 'list'" else "unhashable type: 'dict'")
  }

  /**
   * `parse_status(homework)`. Only a `KeyError` is turned into
   * `UnknownHomeworkStatus`; subscripting a value that is not a dictionary, or
   * looking up a list or dictionary as a status, raises `TypeError`, which
   * passes through.
   */
  function ParseStatus(homework: Value): (r: Result<string, Error>)
    ensures r.Ok? <==> KnownRecord(homework)
    ensures r.Ok? ==> r.value == Notification(Str(homework.fields["homework_name"]),
                                              HomeworkStatuses[homework.fields["status"].s])
    ensures r.Err? ==> (r.error.TypeError? <==>
      || !homework.JDict?
      || ("homework_name" in homework.fields && "status" in homework.fields
          && !Hashable(homework.fields["status"])))
    ensures r.Err? && !r.error.TypeError? ==> r.error == UnknownHomeworkStatus
  {
    if !homework.JDict? then
      Err(SubscriptError(homework))
    else if "homework_name" !in homework.fields || "status" !in homework.fields then
      Err(UnknownHomeworkStatus)
    else
      var status := homework.fields["status"];
      if !Hashable(status) then
        Err(UnhashableError(status))
      else if status.JStr? && status.s in HomeworkStatuses then
        Ok(Notification(Str(homework.fields["homework_name"]), HomeworkStatuses[status.s]))
      else
        Err(UnknownHomeworkStatus)
  }

  // ---------------------------------------------------------------------------
  // Reading a notification back: the inverse of Notification
  // ---------------------------------------------------------------------------

  /** What a notification tells its reader: which homework, and its status. */
  datatype Notice = Notice(name: string, status: string)

  /** The closing text of a notification with the given verdict. */
  function Tail(verdict: string): string
  {
    NoticeSeparator + verdict
  }

  /** `m` starts with the notification prefix and ends with the tail for `verdict`. */
  predicate Frames(m: string, verdict: string)
  {
    && |NoticePrefix| + |Tail(verdict)| <= |m|
    && m[..|NoticePrefix|] == NoticePrefix
    && m[|m| - |Tail(verdict)|..] == Tail(verdict)
  }

  /** The homework name inside a notification framed for `verdict`. */
  function NameIn(m: string, verdict: string): string
    requires Frames(m, verdict)
  {
    m[|NoticePrefix|..|m| - |Tail(verdict)|]
  }

  /** Recovers the homework name and status from a notification text. */
  function Decode(m: string): Option<Notice>
  {
    if Frames(m, Approved) then Some(Notice(NameIn(m, Approved), "approved"))
    else if Frames(m, Reviewing) then Some(Notice(NameIn(m, Reviewing), "reviewing"))
    else if Frames(m, Rejected) then Some(Notice(NameIn(m, Rejected), "rejected"))
    else None
  }

  /** The last two characters of a text. */
  function Ending(s: string): (char, char)
    requires |s| >= 2
  {
    (s[|s| - 2], s[|s| - 1])
  }

  /** No two verdicts end in the same two characters. */
  lemma VerdictEndings()
    ensures |Approved| >= 2 && Ending(Approved) == ('а', '!')
    ensures |Reviewing| >= 2 && Ending(Reviewing) == ('м', '.')
    ensures |Rejected| >= 2 && Ending(Rejected) == ('я', '.')
  {
  }

  /** A notification splits back into its prefix, the name and its tail. */
  lemma NotificationParts(name: string, verdict: string)
    ensures var m := Notification(name, verdict);
      && Frames(m, verdict)
      && NameIn(m, verdict) == name
  {
    var m := Notification(name, verdict);
    assert m == NoticePrefix + name + Tail(verdict);
  }

  /** A text framed for a verdict ends in that verdict's last two characters. */
  lemma FramedEnding(m: string, w: string)
    requires |w| >= 2
    ensures Frames(m, w) ==> |m| >= 2 && Ending(m) == Ending(w)
  {
    if Frames(m, w) {
      var t := Tail(w);
      assert m[|m| - |t|..] == t;
      assert m[|m| - 1] == t[|t| - 1] == w[|w| - 1];
      assert m[|m| - 2] == t[|t| - 2] == w[|w| - 2];
    }
  }

  /** A notification ends in its verdict's last two characters. */
  lemma NotificationEnding(name: string, v: string)
    requires |v| >= 2
    ensures |Notification(name, v)| >= 2 && Ending(Notification(name, v)) == Ending(v)
  {
    var m := Notification(name, v);
    assert m == (NoticePrefix + name + NoticeSeparator) + v;
  }

  /** A notification is framed by another verdict's tail only if the two verdicts end alike. */
  lemma FramedAlike(name: string, v: string, w: string)
    requires |v| >= 2 && |w| >= 2
    ensures Frames(Notification(name, v), w) ==> Ending(v) == Ending(w)
  {
    FramedEnding(Notification(name, v), w);
    NotificationEnding(name, v);
  }

  /** Decoding a notification gives back the name and status it was built from. */
  lemma {:induction false} DecodeNotification(name: string, status: string)
    requires status in HomeworkStatuses
    ensures Decode(Notification(name, HomeworkStatuses[status])) == Some(Notice(name, status))
  {
    var v := HomeworkStatuses[status];
    VerdictEndings();
    NotificationParts(name, v);
    FramedAlike(name, v, Approved);
    FramedAlike(name, v, Reviewing);
    FramedAlike(name, v, Rejected);
  }

  /** Every text that decodes is exactly the notification of what it decodes to. */
  lemma {:induction false} DecodedIsNotification(m: string)
    ensures Decode(m).Some? ==>
      && Decode(m).value.status in HomeworkStatuses
      && m == Notification(Decode(m).value.name, HomeworkStatuses[Decode(m).value.status])
  {
    if Frames(m, Approved) {
      Reassembles(m, Approved);
    } else if Frames(m, Reviewing) {
      Reassembles(m, Reviewing);
    } else if Frames(m, Rejected) {
      Reassembles(m, Rejected);
    }
  }

  /** A text that starts with the prefix and ends with a tail is the notification of what lies between. */
  lemma Reassembles(m: string, verdict: string)
    requires Frames(m, verdict)
    ensures m == Notification(NameIn(m, verdict), verdict)
  {
    var k := |m| - |Tail(verdict)|;
    assert m == m[..|NoticePrefix|] + m[|NoticePrefix|..k] + m[k..];
  }

  /**
   * Every notification `parse_status` produces names exactly the record's
   * homework and its status, so the verdict depends on the status alone.
   */
  lemma ParsedNoticeDecodes(homework: Value)
    requires ParseStatus(homework).Ok?
    ensures Decode(ParseStatus(homework).value)
         == Some(Notice(Str(homework.fields["homework_name"]), homework.fields["status"].s))
  {
    DecodeNotification(Str(homework.fields["homework_name"]), homework.fields["status"].s);
  }

  /** Two records that produce the same notification have the same status and name text. */
  lemma SameNoticeSameStatus(a: Value, b: Value)
    requires ParseStatus(a).Ok? && ParseStatus(b).Ok?
    requires ParseStatus(a).value == ParseStatus(b).value
    ensures a.fields["status"] == b.fields["status"]
    ensures Str(a.fields["homework_name"]) == Str(b.fields["homework_name"])
  {
    ParsedNoticeDecodes(a);
    ParsedNoticeDecodes(b);
  }

  // ---------------------------------------------------------------------------
  // check_response
  // ---------------------------------------------------------------------------

  /**
   * `check_response(response)`. The `and` stops at a value that is not a
   * dictionary; on a dictionary, `response['homeworks']` is looked up before
   * its type is tested, so a missing key raises `KeyError`.
   */
  function CheckResponse(response: Value): (r: Result<seq<Value>, Error>)
    ensures r.Ok? <==> response.JDict? && "homeworks" in response.fields
                       && response.fields["homeworks"].JList?
    ensures r.Ok? ==> r.value == response.fields["homeworks"].items
    ensures r == Err(KeyError("homeworks")) <==> response.JDict? && "homeworks" !in response.fields
    ensures r.Err? ==> r.error == WrongAnswerFormat || r.error == KeyError("homeworks")
  {
    if !response.JDict? then
      Err(WrongAnswerFormat)
    else if "homeworks" !in response.fields then
      Err(KeyError("homeworks"))
    else
      match response.fields["homeworks"]
      case JList(items) => Ok(items)
      case _ => Err(WrongAnswerFormat)
  }

  // ---------------------------------------------------------------------------
  // check_tokens
  // ---------------------------------------------------------------------------

  /** The three settings read from the environment; `None` when unset. */
  datatype Tokens = Tokens(practicum: Option<string>, telegram: Option<string>, chatId: Option<string>)

  /** Truthiness of an environment value. */
  predicate Present(setting: Option<string>)
  {
    setting.Some? && |setting.value| > 0
  }

  /** `check_tokens()`: every credential is set and non-empty. */
  function CheckTokens(tokens: Tokens): (ok: bool)
    ensures ok <==> var all := [tokens.practicum, tokens.telegram, tokens.chatId];
                    None !in all && Some("") !in all
  {
    Present(tokens.practicum) && Present(tokens.telegram) && Present(tokens.chatId)
  }

  // ---------------------------------------------------------------------------
  // get_api_answer
  // ---------------------------------------------------------------------------

  /** What `response.json()` gives: a value, or a decoding error with its text. */
  datatype Body = Parsed(value: Value) | Unparsable(reason: string)

  /** What the transport answered: a status code and body, or an exception with its text. */
  datatype Transport = Answered(statusCode: int, body: Body) | Failed(reason: string)

  const HttpOk := 200

  /** The text `get_api_answer` puts before the cause of every failure. */
  const RequestFailed := "Сбой при запросе к API!"
  /** The text of the `UnavailableApi` raised for a status other than 200. */
  const BadStatus := "Сбой при запросе к API."

  /**
   * The outcome of `get_api_answer` for a given transport answer. Every
   * failure, including the `UnavailableApi` raised inside the `try` for a bad
   * status, is caught and re-raised as `UnavailableApi`.
   */
  function Classify(reply: Transport): (r: Result<Value, Error>)
    ensures r.Ok? <==> reply.Answered? && reply.statusCode == HttpOk && reply.body.Parsed?
    ensures r.Ok? ==> r.value == reply.body.value
    ensures r.Err? ==> r.error.UnavailableApi? && RequestFailed <= r.error.detail
  {
    match reply
    case Failed(reason) => Err(UnavailableApi(RequestFailed + reason))
    case Answered(code, body) =>
      if code != HttpOk then
        Err(UnavailableApi(RequestFailed + BadStatus))
      else
        match body
        case Parsed(v) => Ok(v)
        case Unparsable(reason) => Err(UnavailableApi(RequestFailed + reason))
  }

  /** One request: the `from_date` it sent and what it returned or raised. */
  datatype ApiCall = ApiCall(fromDate: Value, answer: Result<Value, Error>)

  /** `get_api_answer(current_timestamp)` at clock reading `now`. */
  function GetApiAnswer(currentTimestamp: Value, now: int, reply: Transport): (call: ApiCall)
    ensures Truthy(currentTimestamp) ==> call.fromDate == currentTimestamp
    ensures !Truthy(currentTimestamp) ==> call.fromDate == JInt(now)
    ensures call.answer.Ok? <==> reply.Answered? && reply.statusCode == HttpOk && reply.body.Parsed?
    ensures call.answer.Ok? ==> call.answer.value == reply.body.value
    ensures call.answer.Err? ==> call.answer.error.UnavailableApi?
  {
    ApiCall(if Truthy(currentTimestamp) then currentTimestamp else JInt(now), Classify(reply))
  }
}
