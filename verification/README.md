# Homework status notifier — Dafny model

The notifier polls a homework-review API. When the status of the student's newest
homework changes, it sends a sentence about it to a Telegram chat. This project models
the decision layer of `homework.py`:

- `check_tokens`: the three secrets must be present.
- `check_response`: the shape check of an API answer.
- `parse_status`: turns one homework into the notification sentence, using the fixed
  `HOMEWORK_VERDICTS` table.
- the body of `main`'s `while True` loop: a pure step over the state carried between
  passes. That state is the last announced status and the `from_date` cursor.

Modules:

- `Results` (results.dfy): the exceptions the script raises, as error tags.
  - `TypeErr` is `TypeError`.
  - `KeyErr` is `KeyError`.
  - `GenericErr` is any other `Exception`: the bare ones the script raises, and the
    bot library's rejection of a token.
- `PyJson` (pyjson.dfy): the decoded JSON value, with the Python operators the script
  applies to it.
  - `GetItem` is `x[key]`.
  - `In` is `key in x`.
  - `KeyIn` is dict membership of an arbitrary value.
  - `Truthy` is `if x:`.
  - `Str` is `str(x)` inside an f-string.
- `Homework` (homework.py's functions): the verdict table, `CheckTokens`,
  `CheckResponse` and `ParseStatus`.
- `PollLoop` (homework.py's `main`):
  - `Step` is one pass of the loop body.
  - `Poll` is a sequence of passes, and `Run` is the loop that computes it.
  - `Launch` is the start-up: the token check, building the bot, then the loop from the
    start-up time.

A pass takes two inputs: the outcome of fetching the answer (a JSON value or an
exception) and whether the messenger accepts the message. Each pass reports:

- the new state;
- the message handed to the messenger, if the pass got that far;
- the exception that ended the pass.

The loop catches every exception at the end of a pass. Anything assigned before the
exception was raised is kept.

The model follows the code as written, including where it departs from what its names
evidently intend:

- The cursor never advances. The statement meant to advance it (homework.py:109)
  subscripts the homework *list* with the string `'current_date'`. That always raises
  `TypeError`, and the handler at lines 110-111 swallows it. So every pass ends with a
  caught exception (`Step` ensures `raised.Some?`). The cursor keeps its start-up value
  even when the answer carries a `current_date` (`FirstApprovalIsAnnounced`).
- `check_tokens` rejects only a missing token (`None`). An empty string passes it,
  because the code checks only `is None`. Start-up can still stop at line 92, when
  `telegram.Bot` rejects the Telegram token; `Launch` takes that outcome as an input.
- A homework without `status` raises `KeyError` at the comparison on line 102. That
  happens before `parse_status` is called.
- A failed delivery is not only logged: `send_message` re-raises it. So the status is
  not recorded, and the next pass sends the same message again
  (`FailedDeliveryIsRetried`).

## Model

| member | source | states |
|---|---|---|
| Homework.CheckTokens | homework.py:28-34 | The check passes if and only if all three tokens are present (not None). An empty string counts as present. A failure is a bare Exception. |
| Homework.CheckResponse | homework.py:63-72 | Succeeds (returning True) if and only if the answer is a dict with a list under `homeworks`. Otherwise the first failing check decides the error: a non-dict gives TypeError; a missing key gives KeyError; a non-list value gives TypeError. |
| Homework.ParseStatus | homework.py:75-86 | Succeeds if and only if the homework is a dict with both keys and its status is in the verdict table. The result is then the sentence built from str(name) and the verdict. A missing `homework_name` gives KeyError whatever the status holds. A missing `status` gives KeyError. An unknown status gives KeyError, or TypeError when it is unhashable. A non-dict never parses: a list or str that contains `homework_name` gives TypeError (it cannot be subscripted by a string), one that does not gives KeyError, and None, a bool or an int gives TypeError. |
| Homework.ParseStatusKnowsThreeStatuses | homework.py:21-25 | For a dict homework with any name and a string status, a sentence is produced for exactly approved, reviewing and rejected; any other status gives KeyError. |
| Homework.ParseStatusSentence | homework.py:84-86 | For a string name and a known status, the result is exactly `Изменился статус проверки работы "{name}". {verdict}`. |
| Homework.ParseStatusIgnoresOtherKeys | homework.py:77-86 | Two dicts that agree on `homework_name` and `status` give the same result, whatever their other keys hold. |
| Homework.NotificationNamesItsStatus | homework.py:21-25 | Every sentence built for a status can be read back to that status and no other. |
| Homework.VerdictsDoNotEndOneAnother | homework.py:21-25 | No verdict text ends with a different verdict text, so the verdict closing a sentence identifies one status. |
| Homework.ParseStatusIsReadable | homework.py:75-86 | A successful parse reads back to the homework's own status. |
| PyJson.GetItem | homework.py:99-109 | Subscripting by a string key succeeds only on a dict that has the key, and then yields its value. A dict without the key raises KeyError. Any non-dict, a list included, raises TypeError. |
| PyJson.In | homework.py:77 | `key in x` is key membership for a dict, element membership for a list and substring search for a str. None, a bool or an int raises TypeError. |
| PyJson.KeyIn | homework.py:81 | A value is in the string-keyed verdict dict exactly when it is a str among its keys. A list or dict raises TypeError (unhashable); any other value is simply absent. |
| PyJson.Truthy | homework.py:100 | `if x:` is false exactly for None, False, 0, the empty str, the empty list and the empty dict. |
| PyJson.Str | homework.py:86 | The f-string inserts a str name as it is, None as `None`, a bool as `True`/`False`, and an int as its decimal numeral. |
| PyJson.IntToDecimal | homework.py:86 | The f-string renders an int name as a non-empty numeral: a non-negative int as digits that denote it, a negative one as `-` followed by the digits of its magnitude, with no leading zero: 0 is the single digit `0`. |
| PyJson.NatToDecimal | homework.py:86 | The decimal numeral of a natural number consists of digits, denotes that number, and has no leading zero: a numeral of two or more digits starts with a non-zero digit, so 0 is the single digit `0`. |
| PollLoop.CompareAndNotify | homework.py:101-107 | Comparing and notifying never touches the cursor. When nothing is handed to the messenger, the state is unchanged. |
| PollLoop.Step | homework.py:96-111 | A pass never moves the cursor, and it always ends in a caught exception. It changes the last status if and only if a message was handed over and delivered. The recorded status is then the newest homework's status. A known last status stays known. |
| PollLoop.StepSendsIffStatusChanged | homework.py:98-104 | A message is handed over if and only if three things hold: the answer is well shaped with at least one homework; the newest homework parses; and its status differs from the last one announced. The message is that homework's sentence. |
| PollLoop.NothingToAnnounce | homework.py:96-111 | A failed fetch, a malformed answer or an empty homework list sends nothing and leaves the state unchanged. |
| PollLoop.StepDeduplicates | homework.py:102-107 | When the newest homework still has the last announced status, a pass sends nothing and leaves the state unchanged. |
| PollLoop.FailedDeliveryIsRetried | homework.py:102-105 | A failed delivery records nothing, so the next pass over the same answer hands over the same message again. |
| PollLoop.Poll | homework.py:95-113 | Over any number of passes the cursor keeps its value. Never more messages are handed over than there were passes. A known last status stays known. |
| PollLoop.Run | homework.py:95-113 | The loop computes exactly the passes of `Poll`, one after the other, and leaves the cursor where it started. |
| PollLoop.Launch | homework.py:89-95 | Start-up fails if and only if a token is missing or the bot library rejects the Telegram token. Otherwise the loop runs from an empty last status with the cursor at the start-up time, and the cursor is still at the start-up time at the end. |
| PollLoop.RepeatedAnswerInvariant | homework.py:102-107 | Polling the same answer with every delivery accepted leaves one of two situations: nothing has happened yet, or exactly one message went out and the last status equals the newest homework's status. |
| PollLoop.RepeatedAnswerNotifiesOnce | homework.py:95-113 | Polling the same answer any number of times, with every delivery accepted, hands over at most one message. |
| PollLoop.FirstApprovalIsAnnounced | homework.py:96-111 | A fresh loop that sees one approved homework `hw1` announces it with the exact approval sentence and records `approved`. The cursor keeps its start-up value. |
| PollLoop.MissingStatusIsSwallowed | homework.py:100-111 | A newest homework without `status` raises KeyError at the comparison, sends nothing and changes nothing. |

## Left out

- `get_api_answer` (homework.py:47-60) is an HTTP call. Its result, a decoded value or an exception, is an input of `Step`. Its `except requests.RequestException()` clause names an instance rather than a class. Any exception inside the call therefore reaches the loop as some exception, which is exactly what the input allows.
- `send_message` (homework.py:37-44) is external I/O. Only whether the delivery succeeds is modelled, as an input; a failure raises a bare Exception, as line 44 does.
- PollLoop.Launch: which tokens `telegram.Bot` (homework.py:92) rejects is decided inside the bot library, so its verdict is the `botAccepted` input rather than a rule on the token text.
- Loading the environment and `.env` (homework.py:9-14), the header construction (line 18) and the logging setup (lines 116-130) are configuration and side effects. The tokens are parameters of `Launch` and `CheckTokens`, and no log line is modelled.
- `time.time()` (line 93) becomes the `now` parameter of `Launch`. `time.sleep(RETRY_PERIOD)` (line 113) is left out because it does not change the state. The loop is modelled over a finite sequence of passes, since `while True` never ends.
- The error text built at line 111 is never used and is not modelled. The Python exception hierarchy is reduced to three tags.
- JSON floating-point numbers are not modelled.
- PyJson.Str: `str()` is exact for None, bools, ints and strings, which covers a string `homework_name`. Inside a list, strings are quoted with single quotes without Python's escape rules. A dict is shown as `{...}`, because a `map` keeps no insertion order to print it in.
- Json equality is structural. Python's `True == 1` is not modelled. This does not matter here: the last status is always a string, and a string equals only an equal string.
