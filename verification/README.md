# homework_bot in Dafny

A model of the decision logic of `homework.py`, a bot that polls the Practicum homework-status
API and forwards the review status of the newest submission to a Telegram chat. Everything the bot
does with the outside world becomes data: the environment variables are a `Config` value, the HTTP
request is its outcome (`Fetch`), the clock is an integer, and each `send_message` call is a
`Delivery` that either went through or was refused.

Modules:

- `Wrappers`: `Option` and `Result`, standing in for Python's `None` and for exceptions.
- `Decimal`: the decimal rendering of integers, which f-strings use, and reading it back.
- `Json`: the decoded response (`Json.Value`) and Python's `str()`/`repr()` of it.
- `Exceptions`: the exceptions of `exceptions.py` and the Python built-ins the code raises, with
  `str(e)` as the loop formats it.
- `Homework`: `check_tokens`, the outcome classification of `get_api_answer`, `check_response`,
  `parse_status` and the `HOMEWORK_VERDICTS` table.
- `PollLoop`: one iteration of the `while True` loop of `main` as a pure step over
  `(timestamp, prev_verdict)`, and a finite run of iterations behind the credential gate.
- `Scenarios`: concrete iterations on hand-written API answers.

Behaviour of `homework.py` that the model keeps as written:

- The success path sends its message on every iteration and does not compare it with
  `prev_verdict`; only the error path de-duplicates (`PollLoop.RepeatedVerdictIsResent`).
- An empty homework list sends `Статус не обновлен` on every iteration.
- The timestamp becomes the response's `current_date` when present and otherwise the clock of that
  iteration.
- A body that does not decode as JSON is only logged; `return response` then raises
  `UnboundLocalError`, and the loop reports that error.
- A refused alert in the `except` branch is not caught and ends `main` (`Crashed`/`Aborted`).

## Model

| member | source | states |
|---|---|---|
| `Homework.CheckTokens` | homework.py:41-46 | the gate fails exactly when one of the three variables is unset or empty |
| `PollLoop.Run` | homework.py:135-143 | with a failed gate, `main` exits with `Отсутствуют переменные окружения`, sends nothing and makes no request; with a passed gate, it makes at least one request when it has an iteration |
| `Homework.GetApiAnswer` | homework.py:66-93 | a transport failure and every status other than 200 raise `BadHttpStatus`, naming the reason or the code; a value is returned only for a 200 whose body decodes, and it is that body |
| `Homework.UnavailableMessageCarriesCode` | homework.py:80-85 | the digits after the fixed prefix of a non-200 message read back as the status code |
| `Homework.UnavailableMessageInjective` | homework.py:80-85 | two different status codes give two different error messages, so each is alerted separately |
| `Homework.CheckResponse` | homework.py:96-111 | a non-dict raises `TypeError` showing the value; a dict without `homeworks` raises `KeyError`; a non-list `homeworks` raises `TypeError`; otherwise exactly that list is returned, and success happens iff the response has that shape |
| `Homework.ParseStatus` | homework.py:114-132 | `homework_name` is checked before `status`, each missing key raising its `KeyError`; a verdict is produced iff the record is a dict with both keys and a known status, and it is the fixed sentence around the name and the verdict text; for a hashable status the failure is `UnknownHomeworkStatus` iff the status is unknown |
| `Homework.ParseStatusReadsOnlyNameAndStatus` | homework.py:124-132 | two dicts that agree on `homework_name` and `status` parse to the same result |
| `Homework.VerdictMessageInjective` | homework.py:29-33 | a notification determines the verdict text and the name inside it |
| `Homework.SameNotificationSameStatus` | homework.py:124-132 | two records announced with the same sentence have the same status and the same rendered name |
| `PollLoop.Send` | homework.py:49-63 | a delivered message is returned unchanged; a refusal raises `SendMessageError` carrying the chat's reason |
| `PollLoop.Step` | homework.py:144-167 | an iteration delivers at most one message; it stores whatever it delivered in `prev_verdict` and leaves `prev_verdict` alone when it delivers nothing; it aborts exactly when the iteration failed with a new alert text and the alert was refused |
| `PollLoop.SuccessPathTimestamp` | homework.py:146-148 | after a valid response the timestamp is its `current_date`, or the iteration's clock when absent, even if parsing or sending later fails |
| `PollLoop.EarlyFailureKeepsTimestamp` | homework.py:145-148 | a failed request or a rejected response leaves the timestamp unchanged |
| `PollLoop.SuccessPathSendsFirstVerdict` | homework.py:149-153 | a non-empty list sends the verdict on its first element and stores it, whatever `prev_verdict` was |
| `PollLoop.EmptyListSendsNotUpdated` | homework.py:154-159 | an empty list sends `Статус не обновлен` and stores it |
| `PollLoop.OnlyFirstHomeworkMatters` | homework.py:149-150 | responses that agree on the first homework and on `current_date` give the same iteration, however the rest of the list differs |
| `PollLoop.RepeatedVerdictIsResent` | homework.py:149-158 | two consecutive successful iterations with the same message send it twice |
| `PollLoop.FailureSentOnlyWhenNew` | homework.py:160-165 | a failing iteration sends `Сбой в работе бота: <error>` iff that text differs from `prev_verdict`, and afterwards `prev_verdict` holds it; when the text is not new the chat is not contacted, so a refusing chat cannot end `main` |
| `PollLoop.FirstFailureReported` | homework.py:143-165 | the first failure after start-up is always alerted, because `prev_verdict` starts empty |
| `PollLoop.Loop` | homework.py:144-167 | a run makes one request per iteration, sends at most one message per request, and consumes every iteration unless it aborts |
| `PollLoop.RepeatedFailureSentOnce` | homework.py:160-165 | any number of consecutive iterations failing with the same text send it once if it is new and never otherwise; only the first alert's delivery matters, and the run keeps polling whatever the chat would do with the later ones |
| `Scenarios.ApprovedHomeworkAnnounced` | homework.py:146-152 | an approved `hw1` with `current_date` 1700000000 is announced with the approval text and the timestamp becomes 1700000000 |
| `Scenarios.KnownStatusesParse` | homework.py:126-132 | `reviewing` and `rejected` give their own texts; any status outside the three raises `UnknownHomeworkStatus` |
| `Scenarios.EmptyListScenario` | homework.py:154-158 | an empty list without `current_date` sends the not-updated notice and moves the timestamp to the clock |
| `Scenarios.ServiceUnavailableScenario` | homework.py:80-85 | a 503 is alerted once with the code in the text, and a second 503 sends nothing |
| `Scenarios.MalformedResponsesRejected` | homework.py:98-110 | a top-level list, a dict without `homeworks`, and `homeworks` as a string or dict are each rejected with their error |
| `Scenarios.MissingKeyAlertText` | homework.py:103-106 | the alert for a missing `homeworks` key shows the key error's message in single quotes |

## Left out

- The HTTP request itself (`requests.get`, endpoint headers, the `from_date` parameter): the model takes the outcome of the request as input, so the timestamp in the state is what the next request would send, not something it uses.
- The Telegram bot object and its construction: each send is a `Delivery` input, one for the send in the `try` block and one for the alert in `except`.
- Logging, `load_dotenv`, `time.sleep(RETRY_PERIOD)` and the unbounded `while True`: a run is a finite sequence of iterations.
- JSON decoding: the body arrives already decoded or marked undecodable. Floating-point numbers are not modelled; JSON numbers are integers.
- `Json.Show` renders a nested dict as `{...}` and quotes strings inside a list with single quotes and no escaping. Python prints the dict's entries and picks quotes and escapes per string. These texts appear in the `TypeError` for a non-dict response and in the verdict sentence for a non-string `homework_name`.
- Homework.ParseStatus: a `homework_name` that is a dict, or a list holding a string with a quote or an escape, is rendered approximately in the verdict sentence (see `Json.Show` above); string, number, boolean and `null` names render exactly as Python's `str()`.
- The texts of exceptions the interpreter raises (`TypeError` for a subscript or `in` on the wrong type, `UnboundLocalError`) are Python 3.11's wording. Other interpreter versions word them differently.
- The transport failure's reason and the chat's refusal reason are opaque strings, as `requests` and `telegram` render them.
- `exceptions.py` has no logic; its three classes appear only as constructors of `Exceptions.Error`.
