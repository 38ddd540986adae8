# homework_bot in Dafny

A model of the review-status bot in `homework.py`. At start-up the bot checks
that its three credentials (the Practicum API token, the Telegram bot token and
the chat id) are set. It then polls the homework-status API, once per
iteration, for changes since a cursor (`from_date`). The cursor moves to the
server's `current_date`. The bot takes the first homework of the answer and
maps its `status` through the three-entry verdict table. It sends the resulting
notification, or a failure notice (`Сбой в работе программы: …`) when any step
of the chain raised.

Modules:

- `Wrappers` (`wrappers.dfy`): `Option` and `Result`.
- `PyJson` (`json.dfy`): a decoded JSON value (`Json`), `dict.get` / `in` on
  it, and Python's `str()` / `repr()` as the bot's f-strings apply them
  (decimal integers, quoted and escaped strings, lists and dicts). The
  integer and string renderings come with a reader and a round-trip lemma.
- `PyErrors` (`errors.dfy`): the exceptions the pipeline raises, and
  `str(error)`, which the failure notice appends.
- `Homework` (`homework.dfy`): `check_tokens`, the status-code branch of
  `get_api_answer`, `check_response`, `parse_status` and the verdict table.
- `Bot` (`bot.dfy`): one iteration of `main`'s loop (`Attempt` is the `try`
  block, `Step` adds the `except` handler), the loop over a finite sequence of
  HTTP replies (`Run`), and `main` itself as the method `PollBot`. `PollBot`
  keeps the cursor in a loop variable and is proved equal to `Run`.

The model keeps the code's behaviour where it differs from what the code
appears to intend:

- `parse_status` calls `.get` before its `isinstance` check. A record that is
  not a dict therefore fails with `AttributeError`, and the `TypeError('Не словарь')`
  is never raised.
- The `except KeyError` of `check_response` is dead code. A missing `homeworks`
  key reads as `None` and fails the list check with the list `TypeError`.
- In the loop, `api_answer.get('current_date')` runs before `check_response`.
  A non-dict answer therefore fails with `AttributeError`, and
  `check_response`'s non-dict error is never caught there.
- The cursor is reassigned before validation. It moves even when validation
  then fails, and becomes `None` when `current_date` is absent.
- An empty `homeworks` list makes `[0]` raise `IndexError`. The user then gets
  `Сбой в работе программы: list index out of range`.
- `response != []` is false only when the first homework is itself an empty
  list. In that case, and only then, the iteration sends nothing.
- `APIRequestException` is raised without arguments, so its failure notice ends
  right after the prefix.

So the `Статус не обновлен` branch (homework.py:147-148) is reached only when
the first homework is `[]`, never for an empty `homeworks` list, and the cursor
moves before the answer is validated.

## Model

| member | source | states |
|---|---|---|
| `PyJson.Get` | homework.py:87 | `dict.get`: the value stored under the key when the key is present, `None` when it is absent |
| `PyJson.GetUnique` | homework.py:102-103 | on a dict with distinct keys, as the decoder builds, `get` returns exactly the value stored under that key |
| `PyJson.DigitsRoundTrip` | homework.py:116 | the decimal digits written for a non-negative integer read back as that integer |
| `PyJson.IntStrRoundTrip` | homework.py:116 | `str()` of any integer, sign included, reads back as that integer |
| `PyJson.EscapeRoundTrip` | homework.py:116 | escaping a string body for either quote character is undone by unescaping |
| `PyJson.StrRepr` | homework.py:116 | `repr` of a string is enclosed in the quote Python chooses, and its body unescapes to the original string |
| `PyJson.PyStr` | homework.py:116 | the f-string writes a string name as itself, `None` as `None`, and an integer so that it reads back |
| `PyErrors.ErrorText` | homework.py:150-151 | `str()` of a bare `APIRequestException` is empty; a `TypeError` or `IndexError` prints its message and a decoder error its detail; an `AttributeError` prints `'<type>' object has no attribute '<name>'`; a `KeyError` prints its message between the quotes `repr` chooses, and the text between them unescapes to the message |
| `Homework.All` | homework.py:45 | `all(...)` holds exactly when every value is truthy |
| `Homework.CheckTokens` | homework.py:35-45 | true exactly when each of the three credentials is set and non-empty; any one missing or empty makes it false, whatever the other two are |
| `Homework.GetApiAnswer` | homework.py:59-75 | a transport failure or any status other than 200 yields `APIRequestException`; a 200 answer yields its decoded body, or the decoder's error |
| `Homework.CheckResponse` | homework.py:78-95 | a non-dict payload fails with the "not a dict" `TypeError`; a dict succeeds exactly when its `homeworks` entry is present and a list, and returns that list unchanged; every failure is a `TypeError`, never a `KeyError` |
| `Homework.ParseStatus` | homework.py:98-116 | succeeds exactly for a dict with a name and a status from the table; a non-dict fails with `AttributeError`; a missing name fails first, then a missing status; a success is the notification prefix, `str()` of the name, the separator and the verdict the table gives for this record's status |
| `Homework.ParseStatusVerdicts` | homework.py:28-32 | for any dict with a name and status `approved`, `reviewing` or `rejected` (whatever other keys it has, in any order), the exact notification with that status's literal verdict text |
| `Homework.ParseStatusRejectsUnknown` | homework.py:111-112 | a present status that is not a table key fails, with the "unknown status" `KeyError` or, for a list or dict, an unhashable-type `TypeError` |
| `Homework.ParseStatusTypeCheckUnreachable` | homework.py:102-106 | the record type check's `TypeError` is never the result |
| `Bot.FailureMessage` | homework.py:150-152 | every failure notice is the failure prefix followed by `str(error)` |
| `Bot.HandleAnswer` | homework.py:142-148 | the iteration sends nothing exactly when the first homework is `[]`; an empty list fails with `IndexError`; a `check_response` error passes through unchanged; otherwise the result is `parse_status` of the first homework, its text or its error |
| `Bot.Attempt` | homework.py:139-148 | a failed fetch leaves the cursor and raises the fetch error; a non-dict answer leaves the cursor and raises `AttributeError`; a dict answer sets the cursor to its `current_date` and ends as the validation-and-format chain ends |
| `Bot.Step` | homework.py:138-152 | an iteration sends nothing exactly on a quiet reply; its cursor is the one the `try` block set; any error the `try` block raised is sent as the failure notice for that error, and otherwise the `try` block's own text is sent |
| `Bot.StepNotifies` | homework.py:140-146 | when the whole chain succeeds, the cursor is the answer's `current_date` and the sent text is `parse_status` of the first homework |
| `Bot.StepSendsOnce` | homework.py:52-56 | every non-quiet iteration sends one text; it is a notification when the chain succeeded and a failure notice otherwise |
| `Bot.StepReportsParseStatusError` | homework.py:142-152 | when `parse_status` rejects the first homework, the notice sent is the failure prefix followed by `str()` of that error, and the cursor has moved to `current_date` |
| `Bot.StepEmptyHomeworks` | homework.py:142 | an empty `homeworks` list sends `Сбой в работе программы: list index out of range` and still moves the cursor |
| `Bot.NotDictPayloadUnreachable` | homework.py:83-86 | the loop never catches `check_response`'s non-dict `TypeError` |
| `Bot.StepApprovedExample` | homework.py:138-146 | one approved homework `proj1` with `current_date` 1000 sends its approval notification and moves the cursor to 1000 |
| `Bot.RunShape` | homework.py:138-154 | one request per iteration; the first uses the start cursor and each later one the cursor the previous iteration left; one text per iteration except the quiet ones |
| `Bot.RunOutage` | homework.py:63-74 | when every fetch fails, the cursor never moves, every request uses the start cursor, and each iteration sends the failure notice for its error |
| `Bot.PollBot` | homework.py:119-154 | when `main` runs without all three credentials it exits with `Токены отсутствуют` before any request or send; otherwise it starts from `now` and its requests, sends and final cursor are those of `Run` |

## Left out

- The HTTP request itself (`requests.get`, the endpoint, the `Authorization` header, the `from_date` parameter). Each iteration's reply is an input: a transport failure, or a status code with a body that is or is not JSON. The text of the decoder's error is an input too.
- The Telegram `Bot`, and the `Updater` built when the module loads (homework.py:21). With python-telegram-bot's `Updater`, a missing or malformed `TELEGRAM_TOKEN` raises already at that line, before `main` runs, so the process then dies with the library's error and not with `Токены отсутствуют`. `Bot.PollBot`'s exit therefore models a missing or empty `PRACTICUM_TOKEN` or `TELEGRAM_CHAT_ID`, or `main` called with the bot token missing. `send_message` catches every exception, so the model records the texts handed to it; delivery success is not modelled.
- `dotenv` and `os.getenv`: the three credentials are an input (`Env`).
- `time.time()`: the start time is the parameter `now`.
- `time.sleep(RETRY_PERIOD)` and the unbounded `while True`: the loop runs once per given reply.
- `sys.exit` is modelled as the returned exit message. Logging is left out, including that `check_tokens` logs only the unset credentials and not the empty ones.
- JSON floats, and Python's `\x`, `\u` and `\U` escapes for non-printable characters in `repr` of a string.
- Dict objects are ordered key/value sequences, and lookups take the first entry with the key. The type admits a repeated key, which no decoded dict has; `PyJson.DistinctKeys` states the decoder's guarantee and `PyJson.GetUnique` shows that lookups are exact under it, but the operations do not require it.
- The `api_error` helper in exceptions.py is never called. Its status check is the one `get_api_answer` makes, modelled in `Homework.GetApiAnswer`.
