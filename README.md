# homework_bot — a Dafny model

`homework.py` is a polling bot. On every pass of an endless loop it is meant
to ask the homework-review API for the homework whose status changed since a cursor
timestamp. It formats one notification per homework and hands each to a
Telegram bot. If the API is unreachable, its `except` branch reports the
outage at most once for the life of the process. The next pass, if it finds no
homework, re-sends that report from the `else` branch. In general a pass that
finds no homework re-sends whatever `message` last held; after a second outage,
that is the second outage's text, which was never reported. As written, the guard at
line 115 raises on every pass, so no request is made (see `## Findings`). This
project models all of that logic in Dafny. Every external effect is an input or an output:

- the clock, the transport's answer and the value of the loop's guard are a `Tick`;
- the texts handed to `send_message` and the `from_date` of each request are
  recorded in the state.

Files:

- `wrappers.dfy`: `Option` and `Result`. `Result` stands for a Python call that
  either returns a value or raises an exception.
- `values.dfy`: the Python values the bot handles (`None`, booleans, integers,
  strings, lists, dictionaries), their truthiness, `dict.get` and `str()`.
- `homework.dfy`: module `Homework`. It holds the status table, `parse_status`,
  `check_response`, `check_tokens` and the outcome of `get_api_answer`. It also
  holds `Decode`, which reads a notification back into a homework name and a
  status. `Decode` is the partner that the formatter's round-trip lemmas are
  stated against.
- `poll_loop.dfy`: module `PollLoop`. One pass of `main`'s `while True` is the
  function `Step` over `State`: the cursor `current_timestamp`,
  `api_error_count`, the local `message`, the outbox, the requests sent and the
  process phase. `Run` folds `Step` over a finite sequence of ticks. The class
  `Bot` runs the same pass imperatively: a `for` loop sends the notifications,
  then the `except` or `else` branch runs. Its methods are proved to agree with
  `Step` and `Run`.

The code has these quirks, and the model keeps each of them:

- After a pass that succeeds, the `else` branch sends `message` again. So the
  last notification of a non-empty pass goes out twice (`SuccessfulPass`).
- A pass that finds no homework re-sends whatever `message` held before. That
  can be an earlier failure text.
- If the very first pass finds no homework, `message` is still unbound. The
  `UnboundLocalError` escapes `main` and ends the process
  (`FirstQuietPassCrashes`).
- `api_error_count` is never reset. So the `except` branch reports at most one
  outage for the life of the process, not one per outage
  (`CounterCountsAlerts`). The next pass, if it finds no homework, re-sends
  that report from the `else` branch (`OutageThenQuietPass`). In general a
  pass that finds no homework re-sends whatever `message` last held; after a
  second outage, that is the second outage's text, which was never reported
  (`SecondOutageThenQuietPass`).
- `parse_status` turns only a `KeyError` into `UnknownHomeworkStatus`. A record
  that is not a dictionary raises `TypeError`. So does a record that has both
  keys and whose status is a list or a dictionary. A record missing either key
  raises `KeyError` first, so it gets `UnknownHomeworkStatus`.
- `check_response` reads `response['homeworks']` before its type test. A
  dictionary without that key raises `KeyError`, not `WrongAnswerFormat`.
- A status code other than 200 raises `UnavailableApi` inside the `try`. The
  `except` there catches it and raises it again. So its text is the failure
  prefix followed by the first message.

Three checks the code does not make:

- `check_response` never looks at `current_date`.
- The cursor is whatever `response.get('current_date', current_timestamp)`
  returns. It is not checked to be an integer, and it can move backwards.
- Nothing tests for the `homeworks` key before reading it, so a missing key
  raises `KeyError`.

## Model

| member | source | states |
|---|---|---|
| `Homework.ParseStatus` | homework.py:87-96 | Succeeds exactly when the record is a dictionary with `homework_name` and a `status` that is one of `approved`, `reviewing` or `rejected`. The text then embeds the name and that status's verdict from the table. Otherwise it raises `TypeError` when the record is not a dictionary, or when both keys are present and the status is a list or a dictionary. It raises `UnknownHomeworkStatus` in every other case, including a missing key. |
| `Homework.DecodeNotification` | homework.py:30-34 | A notification built from a name and any status in the table decodes back to exactly that name and status, so no two verdicts can be confused. |
| `Homework.DecodedIsNotification` | homework.py:93 | Every text that decodes is exactly the notification built from the name and status it decodes to. |
| `Homework.ParsedNoticeDecodes` | homework.py:90-93 | The text `parse_status` returns names the record's `homework_name` and its `status`, and nothing else. |
| `Homework.SameNoticeSameStatus` | homework.py:90-93 | Two records that yield the same notification have the same status and the same name text: the verdict is a function of the status alone. |
| `Homework.CheckResponse` | homework.py:78-84 | Returns exactly `response['homeworks']` (same items, same order) when the response is a dictionary whose `homeworks` is a list. Raises `KeyError('homeworks')` exactly when a dictionary lacks that key. Raises `WrongAnswerFormat` in every other case. |
| `Homework.CheckTokens` | homework.py:99-105 | True exactly when none of the three settings is unset or empty. |
| `Homework.Classify` | homework.py:62-75 | Returns the decoded body exactly when the status is 200 and the body decodes. Any other status, a transport exception or an undecodable body becomes `UnavailableApi`, with the failure prefix in its text. |
| `Homework.GetApiAnswer` | homework.py:56-75 | The `from_date` sent is the cursor when it is truthy and the clock otherwise. The call returns a body only for a 200 answer, and that body is the decoded one. It raises `UnavailableApi` in every other case. |
| `PollLoop.Notify` | homework.py:119-122 | The `for` loop over the homework list, as a function of the list. It has no contract of its own; `NotifySends` states its properties. |
| `PollLoop.Attempt` | homework.py:114-127 | The `try` body: guard, request, shape check, notifications and cursor. It has no contract of its own; `AttemptKeeps` states its properties. |
| `PollLoop.Recover` | homework.py:131-138 | The `except` branch: `message` takes the failure text, which is sent and counted only for an API outage while the counter is 0. It has no contract of its own; `FailedPass` states its properties. |
| `PollLoop.Step` | homework.py:113-143 | One pass of `while True`, with its `except` and `else` branches. It has no contract of its own; `FailedPass`, `SuccessfulPass`, `QuietPass`, `RejectedRecordPass` and `TokenGuardedPass` state its properties. |
| `PollLoop.Run` | homework.py:113 | Passes of `while True`, one per tick, while the process runs. It has no contract of its own; `CounterCountsAlerts`, `OutageReportedOnce`, `OutageThenQuietPass`, `SecondOutageThenQuietPass` and `WrittenLoopIsInert` state its properties. |
| `PollLoop.NotifySends` | homework.py:119-122 | The `for` loop sends one notification per record, in list order, up to the first record `parse_status` rejects. That record's exception stops the loop. If no record is rejected, every record is sent. |
| `PollLoop.NotifyFromAfter` | homework.py:119-122 | Working through the list one record at a time, as the `for` loop does, behind any texts already sent, gives exactly the batch `Notify` describes. |
| `PollLoop.AttemptKeeps` | homework.py:114-127 | The `try` body never changes the counter or the phase. It only appends to the outbox. It moves the cursor only when it completes. |
| `PollLoop.FailedPass` | homework.py:131-138 | A pass that raises leaves the cursor unchanged and sets `message` to the failure text. It sends that text and adds one to the counter exactly when the error is `UnavailableApi` and the counter is 0. Any other error sends nothing and leaves the counter unchanged. |
| `PollLoop.SuccessfulPass` | homework.py:119-140 | A pass whose records are all known sends one notification per record, in order, then the last one again. It leaves `message` on that text, moves the cursor to `current_date` (or keeps it when that key is absent) and keeps the counter. |
| `PollLoop.QuietPass` | homework.py:123-140 | A pass with an empty homework list sends only the previous `message` again. It crashes exactly when `message` was never bound. When `message` is bound, the process keeps running and `message` is unchanged. The cursor moves to `current_date` if present, the counter does not change, and one request is recorded. |
| `PollLoop.FirstQuietPassCrashes` | homework.py:110-140 | If the first pass of the process finds no homework, the process dies on the unbound `message` and has sent nothing. |
| `PollLoop.RejectedRecordPass` | homework.py:119-138 | If record k is the first one rejected, exactly the notifications of records 0 to k-1 have gone out, in order. `message` becomes the failure text. The cursor and counter do not change, and the process keeps running. |
| `PollLoop.TokenGuardedPass` | homework.py:115-130 | With the `check_tokens()` guard, a pass ends the process exactly when a credential is missing, and then changes nothing else. Otherwise it sends one request whose `from_date` is the cursor, or the clock when the cursor is falsy. |
| `PollLoop.CounterCountsAlerts` | homework.py:112-138 | Over any run, the counter grows by exactly the number of outage reports the `except` branch sends. That branch reports at most one outage, and none once the counter has left 0. |
| `PollLoop.OutageThenQuietPass` | homework.py:131-140 | An outage pass followed by a pass that finds no homework sends the outage report twice. The `except` branch reports it once, and the `else` branch re-sends it from `message`. |
| `PollLoop.SecondOutageThenQuietPass` | homework.py:131-140 | Two outage passes and then a pass that finds no homework send the first outage's report and then the second outage's text. The `except` branch reports only the first, and the `else` branch sends the second from `message`. |
| `PollLoop.OutageReportedOnce` | homework.py:131-138 | Any number of consecutive outage passes sends one report in total: the first pass's, and only if none was sent before. The cursor stays put and the counter ends at 1. |
| `PollLoop.WrittenLoopIsInert` | homework.py:113-143 | With the guard as written, any number of passes sends no request and no message. The cursor, counter and phase stay as they were. Only `message` takes the text of the guard's `TypeError`. |
| `PollLoop.Bot.constructor` | homework.py:110-112 | The loop starts with the clock as cursor, counter 0, `message` unbound and nothing sent. |
| `PollLoop.Bot.SendMessage` | homework.py:47-53 | Appends the text to the outbox and changes nothing else. |
| `PollLoop.Bot.NotifyAll` | homework.py:119-122 | The imperative `for` loop sends exactly the notifications `Notify` gives and stops with its exception. `message` ends on the last text sent. |
| `PollLoop.Bot.TryPass` | homework.py:114-127 | The imperative `try` body leaves the state and outcome that `Attempt` gives. |
| `PollLoop.Bot.Pass` | homework.py:113-143 | One imperative pass, with its `except` and `else` branches, leaves the state `Step` gives. |
| `PollLoop.Bot.Loop` | homework.py:113-143 | Running passes for a finite sequence of ticks, stopping when the process ends, leaves the state `Run` gives. |

## Findings

| source | as written | input that shows it | evidently intended | confidence | as-written member | corrected member |
|---|---|---|---|---|---|---|
| homework.py:115 | `if check_response():` calls the response check with no argument, so it raises `TypeError` before any request is made | any pass of the loop, whatever the credentials, clock or API | `if check_tokens():`, which lets the pass poll the API when the credentials are present and exits otherwise | high; not executed | `PollLoop.WrittenLoopIsInert` | `PollLoop.TokenGuardedPass` |

A pass takes the guard's value as an input (`Tick.guard`). `WrittenGuard` is
the `TypeError` the code raises there. `TokenGuard` is the `check_tokens()`
guard. The lemmas about passes that reach the API (`SuccessfulPass`,
`QuietPass`, `FirstQuietPassCrashes`, `RejectedRecordPass`,
`OutageReportedOnce`, `OutageThenQuietPass`, `SecondOutageThenQuietPass`)
assume a guard of `True`. That is what `TokenGuard` yields when the credentials are present.

## Left out

- The HTTP request (`requests.get`, headers, endpoint) and JSON decoding are
  not modelled. The transport's answer is an input: a status code and a body
  that decoded or failed to decode, or an exception with its text.
- The Telegram bot is not modelled. The outbox records every `send_message`
  call. Whether delivery succeeded, and the swallowed `TelegramError`, cannot
  be seen by the loop.
- `load_dotenv` and `os.getenv` are not modelled: the three settings are an
  input (`Tokens`). Logger setup and log lines have no effect on the state.
- `telegram.Bot(token=TELEGRAM_TOKEN)` at the top of `main` is not modelled:
  `Bot.constructor` always enters the loop. A missing or malformed bot token
  can end the process there, before the loop's guard is ever evaluated.
- `time.time()` is an input (`Tick.now` and the constructor's `now`).
  `time.sleep(RETRY_TIME)` has no effect on the state. The endless loop is
  modelled as `Run` and `Bot.Loop` over finite sequences of ticks.
- `sys.exit` and an exception that escapes `main` end the process. They are
  modelled as the final phases `Exited` and `Crashed`, after which no pass
  runs.
- The `exceptions` module is not part of this model. Its four classes are
  constructors of `Homework.Error`, and their text is empty when raised
  without arguments.
- JSON numbers with a fraction are not modelled. Dictionaries are maps, so
  their key order is not kept (only lookup is used).
- Homework.ParseStatus: when `homework_name` is a list or a dictionary, it is
  shown as a fixed placeholder, not as Python's `repr` of it. Strings, integers,
  booleans and `None` are shown exactly.
- The texts of Python's built-in `TypeError` messages follow CPython 3.9's
  wording. No property depends on them.
