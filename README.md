# homework_bot, modelled in Dafny

homework_bot is a polling bot. It asks a homework-review API which of the
user's homework submissions changed status since a cursor timestamp. It
checks the answer, turns each record into a chat message such as
`The status has changed: "proj1". Hooray! Your homework is checked and everything is cool!`
and sends it through a Telegram bot. Then it moves the cursor to the current
time and waits. Any exception along the way is caught by one handler, which
sends `Something went wrong: <error>` to the same chat and leaves the cursor
where it was.

This project models that decision core and proves properties of it:

- `PyModel.dfy` (module `PyModel`) holds the Python values a decoded JSON
  body can contain (None, bool, int, str, list, dict in insertion order).
  It also holds the operations the bot applies to them (`.get`, `[...]`,
  iteration, truthiness, hashability), the exceptions those operations
  raise, and how `str()` renders values and exceptions in an f-string.
- `Homework.dfy` (module `Homework`) holds the pure functions:
  - the status vocabulary;
  - `parse_status` (`ParseStatus`) and an inverse reader of its texts
    (`ReadNotification`);
  - `check_response` (`CheckResponse`);
  - the error mapping of `get_api_answer` (`GetApiAnswer`) and of
    `send_message` (`SendMessage`).
- `Polling.dfy` (module `Polling`) holds the driving loop of `main`:
  - `Step` is one pass, as a function on the loop's state: cursor, messages
    delivered, requests issued, and whether the process has ended.
  - `Passes` is a bounded run of passes.
  - The `Poller` class does the same on its own fields. `PollOnce` and
    `Run` are proved to leave exactly the state that `Step` and `Passes`
    describe.

What the network and the clock did is an input to each pass (`Poll`):
- the API's reply: a transport failure, or a status code with a body that
  decodes or does not;
- the outcome of each record message sent;
- the outcome of the failure notice;
- the clock reading.

Behaviour the model keeps as the code has it:

- `check_response` returns or raises inside the first turn of its loop, so
  it inspects only the first record. A batch whose first status is known
  passes whatever the later records hold. A later record with an unknown
  status is then formatted with the verdict `None`
  (`CheckResponseLetsLaterUnknownThrough`). One would expect the
  validator to reject the batch when any record's status is unrecognised;
  the code does not, and neither does the model.
- `send_message` turns only `requests` exceptions into
  "Something wrong with Telegram". An exception of the bot client's own is
  passed through unchanged (`ClientFailure`), and its own text ends up in
  the failure notice. One would expect every failure to
  send a message to become the same generic error; the code does not do
  that, and neither does the model.
- A non-200 status code is only logged. The body is decoded anyway.
- The failure notice is sent by a direct call outside any `try`. If that
  call raises, the exception leaves `main` and the process ends. This is
  the state's `halted` flag.

## Model

| member | source | states |
|---|---|---|
| PyModel.Get | homework.py:70-72 | `x.get(key)` on a dict gives the stored value or None; any other value raises AttributeError naming its type |
| PyModel.Index | homework.py:62-63 | `x[key]` on a dict gives the stored value or raises KeyError(key); on a non-dict it raises the TypeError for its type |
| PyModel.Iterate | homework.py:71 | `for` over a list visits its items, over a str its characters, over a dict its keys; None, bool and int raise "not iterable"; the visit is empty exactly when the value is falsy |
| Homework.GetApiAnswer | homework.py:41-57 | a transport failure raises "No data from Practicum"; an undecodable body raises "Something wrong with the server"; a decoded body is returned unchanged whatever the status code |
| Homework.SendMessage | homework.py:32-38 | succeeds exactly when delivered; a requests failure raises "Something wrong with Telegram"; the client's own exception keeps its text |
| Homework.VerdictFor | homework.py:23-27 | a status in the three-entry vocabulary gives its verdict text; anything else gives the text None; the result is always one of the four verdict texts |
| Homework.ParseStatus | homework.py:60-65 | a non-dict record, a missing `status` key, an unhashable status and a missing `homework_name` key each raise their Python error; otherwise the result is the template filled with str(name) and the status's verdict (None when unknown), with no error |
| PyModel.PyStr | homework.py:65 | inside the f-string a str name shows as itself and a None value (such as a null homework_name) as the text None; any other value shows as its repr() |
| Homework.ReadNotificationInverts | homework.py:65 | for every name and every verdict text, the notification text reads back as exactly that name and that verdict |
| Homework.ParseStatusKnown | homework.py:60-65 | with a known status and a str name, the message is `The status has changed: "<name>". <verdict>` with that status's verdict, and it reads back as that name and verdict |
| Homework.ParseStatusUnknown | homework.py:62-65 | with a status that is null or a str outside the vocabulary, nothing is raised and the verdict part is the literal text None |
| Homework.CheckResponse | homework.py:68-78 | the result is the `homeworks` value unchanged; an empty list, str or dict passes unchanged; a value that cannot be iterated raises the iteration's error; a list whose first status is known passes whole; a first record that is a dict with an absent status or an unknown hashable status raises "No status"; a list or dict status raises TypeError (unhashable); a first record that is not a dict raises AttributeError; a missing key gives None, which raises "not iterable"; a non-dict response raises AttributeError |
| Homework.CheckResponseFirstOnly | homework.py:71-77 | on a non-empty list the response passes if and only if the first record's status is known, and replacing the later records never changes the verdict |
| Homework.CheckResponseAcceptsAllKnown | homework.py:71-74 | a list in which every record has a known status passes unchanged |
| Homework.CheckResponseLetsLaterUnknownThrough | homework.py:68-78 | a list `[approved, unknown]` passes although not all records are known, and the second record is formatted with the verdict None |
| Polling.DeliveredInOrder | homework.py:91-93 | the messages a pass sends are the formatted texts of records 0, 1, ... in list order, each of them delivered |
| Polling.DeliveryStops | homework.py:91-96 | the record loop gets through every record exactly when nothing raised; otherwise every record before the stop was formatted and delivered, and the record it stops at is the one whose formatting or sending raised, with that exception |
| Polling.SuccessfulPass | homework.py:87-94 | when every validated record formats and is delivered, the pass appends exactly one message per record, in list order, after everything sent before, and the cursor becomes the clock reading |
| Polling.FailingPass | homework.py:86-101 | when any stage raises, the cursor keeps its value; after the record messages sent before the exception (a proper prefix of the records' texts) comes exactly one notice, `FailureNotice(e)`, which is `Something went wrong: ` followed by str(e) as `PyModel.Str` renders it (homework.py:99), and nothing after it; if that notice cannot be delivered the process ends |
| Polling.EmptyPass | homework.py:89-94 | an empty validated list sends nothing and still moves the cursor to the clock reading |
| Polling.StatusCodeOnlyLogged | homework.py:51-54 | replacing the reply's status code leaves the pass's outcome unchanged |
| Polling.FailureNoticeIsNoNotification | homework.py:98-100 | a failure notice never reads as a status notification |
| Polling.PassesFromHalted | homework.py:96-101 | once an exception has escaped `main`, no pass runs and nothing more is sent |
| Polling.PassesKeepHistory | homework.py:85-101 | a run only appends to the sent messages and to the requests, at most one request per pass, and an ended process stays ended |
| Polling.PassesSurvive | homework.py:85-101 | when no pass ends the process, the process is still running afterwards and each pass issues exactly one request |
| Polling.FailuresRetrySameCursor | homework.py:85-101 | over a run of failing passes the cursor never moves, and every request asks for the same `from_date` |
| Polling.CursorIsLastSuccess | homework.py:84-94 | after a run in which no pass ends the process, the cursor is the clock reading of the last pass that succeeded |
| Polling.CursorStaysWithoutSuccess | homework.py:84-101 | after a run in which every pass failed, the cursor is where it started |
| Polling.ApprovedRecordPass | homework.py:86-94 | `{"homeworks":[{"status":"approved","homework_name":"proj1"}]}` gives exactly one message, the approved template filled with proj1, and the cursor moves |
| Polling.UnknownRecordPass | homework.py:86-100 | `{"homeworks":[{"status":"unknown","homework_name":"proj2"}]}` gives no message for proj2 and exactly one `Something went wrong: No status`, and the cursor stays |
| Polling.TransportFailurePass | homework.py:45-49 | a transport failure gives exactly one `Something went wrong: No data from Practicum` and keeps the cursor |
| Polling.SecondSendFailsPass | homework.py:91-100 | when the second record's send fails, the first record's message stays sent and is followed by `Something went wrong: Something wrong with Telegram` |
| Polling.Poller.constructor | homework.py:83-84 | the cursor starts at the clock reading taken at start; nothing is sent or requested yet |
| Polling.Poller.PollOnce | homework.py:86-101 | one pass of the loop body leaves the fields exactly as `Step` describes |
| Polling.Poller.SendRecords | homework.py:90-93 | the record loop appends exactly the messages `DeliverFrom` describes and returns its exception, if any |
| Polling.Poller.Run | homework.py:85-101 | a bounded run of the loop leaves the fields exactly as `Passes` describes, stopping once an exception has escaped `main` |

## Left out

- The network: `requests.get`, the Telegram client and JSON decoding are foreign library calls. Their results are inputs to each pass (`HttpReply`, `SendOutcome`).
- An exception from `requests.get` that is not a `requests` exception, or one from `.json()` that is not a decode error, is not modelled. The model's reply covers only the outcomes the code handles by name.
- Configuration: `load_dotenv` and `os.getenv` (homework.py:9-13), the bot token, the chat id and the `Authorization` header (homework.py:29) are not modelled. A request is modelled by its endpoint and its `from_date` only.
- Logging (homework.py:15-17 and every `logging.*` call) is a side effect only.
- `time.time()` is the `now` input of each pass, and the cursor start is the constructor's argument. `time.sleep` and the 300-second wait are not modelled.
- The `while True` loop never ends. The model runs one pass (`PollOnce`) or a finite list of passes (`Run`).
- The delivery result that `send_message` returns is not modelled. Only whether the message was delivered matters.
- JSON floating-point numbers are not modelled. A decoded number is an int.
- When a homework name is a list or dict, its repr() is modelled with every character at or above U+0080 shown as it is. CPython escapes the non-printable ones among them.
- A decoded dict is assumed to have distinct keys, which the JSON decoder guarantees. A lookup takes the first matching key.
- The texts of interpreter errors (KeyError, AttributeError, TypeError) follow CPython 3.11's wording. Other versions word some of them differently.
- Exceptions outside `Exception`, such as KeyboardInterrupt, are not modelled.
