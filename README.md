# homework_bot core in Dafny

This project models the checking and formatting core of `homework.py`, a
Telegram bot that polls the Practicum homework-review API. The model covers:

- `HOMEWORK_VERDICTS`, the fixed table from review status to the text sent to
  the user (`Homework.Verdicts`);
- `check_tokens`, which refuses to run unless the three credentials are set
  (`Homework.CheckTokens`);
- `parse_status`, which turns one homework record into the user-facing
  sentence or the fallback `'Неправильный статус ДЗ'` (`Homework.ParseStatus`);
- `check_response` with its `homeworks_structure` table, which walks a decoded
  API response and prints one line per problem it finds
  (`ResponseCheck.CheckResponse`, `ResponseCheck.CheckHomework`,
  `ResponseCheck.ScanRecord`).

Decoded JSON is the datatype `PyValue.Json`. Python's exact `type(x) != int`
tests become constructor tests, so `true` is not an int. The exceptions that
can leave the core are `PyValue.Exc`. The printed lines of `check_response`
are a sequence of `ResponseCheck.Diag` values, and `ResponseCheck.Line` gives
their text. A call that raises is `Raised(exc, lines)`: `lines` are the lines
printed before the exception escaped.

`check_response` works by changing state step by step (nested loops, early
returns, `try`/`except`). It is therefore written as imperative methods. Each
method is proved equal to a specification function: `ScanFields`,
`RecordOutcome`, `RecordsOutcome` and `ResponseOutcome`. The lemmas prove what
`homework.py` promises about those functions. `check_tokens` and `parse_status`
are straight-line code, so they are functions.

Two behaviours of `check_response` are modelled exactly as `homework.py` has them:

- An `int` `current_date` short-circuits the `and` in `check_response`, so a
  missing `homeworks` key then escapes as `KeyError` from the loop header
  instead of printing the "no current_date or homeworks" line.
- The bad-type `Exception` is raised only when both top-level fields have the
  wrong type.

A `homeworks` value that is not a list is iterated as Python would iterate it.
An empty string or an empty dict yields no records. Any other non-list value
raises `TypeError`: a non-empty string or dict yields string elements that
cannot be indexed by a key, and a number, bool or `null` is not iterable.

## Model

| member | source | states |
|---|---|---|
| Homework.CheckTokens | homework.py:29-35 | raises exactly when at least one of the three tokens is unset (absent or the empty string), and the exception is `Exception('problem with tokens')` |
| Homework.ParseStatus | homework.py:90-96 | raises `TypeError` exactly when the record is not a dict or its status is unhashable; any result other than the fallback requires a string status that is a verdict key and a present `homework_name` |
| Homework.ParseStatusKnown | homework.py:90-94 | a record with a known status and a name yields `Изменился статус проверки работы "<name>". <verdict>`, with the verdict taken from `HOMEWORK_VERDICTS` |
| Homework.ParseStatusFallback | homework.py:90-96 | when the status is absent or hashable, the formatter never raises, and it returns `'Неправильный статус ДЗ'` exactly when the status is missing, is not a verdict key, or the name is missing |
| Homework.VerdictSentences | homework.py:22-26 | the three verdict sentences spelled out for `approved`, `reviewing` and `rejected` |
| ResponseCheck.ScanFields | homework.py:72-74 | the field loop prints at most one line per field, and it completes only when every field is present; when it stops early, its last line is `there is no <field>` for a field the record lacks |
| ResponseCheck.ScanRecord | homework.py:72-74 | the loop over `homeworks_structure` produces exactly the lines and the stop point of the field-loop specification |
| ResponseCheck.CheckHomework | homework.py:71-87 | checking one record (field types, then status, then date, with the missing-key handler) produces exactly the outcome of the record specification |
| ResponseCheck.CheckResponse | homework.py:52-87 | the whole of `check_response` (top-level key and type checks, then each record in list order, stopping at the first escaping exception) produces exactly the response specification's outcome |
| ResponseCheck.StatusAndDate | homework.py:75-85 | after a complete field loop, an exception escapes exactly when the status is unhashable or the date is not a string; it is always `TypeError`, and the lines printed before it are kept |
| ResponseCheck.RecordOutcome | homework.py:71-87 | checking one record raises exactly when the record is not a dict, or it holds all six fields and its status is unhashable or its date is not a string; the exception is always `TypeError`; a dict missing a field ends normally with `there is no <field>` as its last line |
| ResponseCheck.RecordsOutcome | homework.py:70-87 | the record loop lets only `TypeError` escape |
| ResponseCheck.ScanComplete | homework.py:72-74 | with every field present, the field loop completes and prints exactly the type lines of the mismatched fields, in declaration order |
| ResponseCheck.ScanMissing | homework.py:72-87 | at the first missing field, the loop prints the type lines of the fields before it and then `there is no <field>`, and stops |
| ResponseCheck.MismatchesEmpty | homework.py:72-74 | no type line is printed exactly when every field has its declared type |
| ResponseCheck.CompleteRecord | homework.py:72-85 | the exact outcome for a record holding all six fields: type lines, then a status line for a status outside the verdict table, then a date line for a date `strptime` rejects; an unhashable status or a non-string date raises `TypeError` after the lines printed so far |
| ResponseCheck.MissingFieldRecord | homework.py:71-87 | a record missing a field prints the type lines before the first missing field and one line naming it; there is no status or date check, and nothing is raised |
| ResponseCheck.RecordSilentIff | homework.py:71-87 | a record prints nothing and raises nothing exactly when it is a dict with all six fields of their declared types, a known status and a date `strptime` accepts |
| ResponseCheck.RecordPrintsRecordLines | homework.py:71-87 | checking one record never prints the top-level "no current_date or homeworks" line |
| ResponseCheck.RecordsPrintRecordLines | homework.py:70-87 | the record loop never prints the top-level "no current_date or homeworks" line |
| ResponseCheck.RecordsAppend | homework.py:70-87 | records are checked in list order and independently: the outcome for `first + rest` is that of `first` if it raised, else its lines followed by the outcome for `rest` |
| ResponseCheck.ConformingRecordsSilent | homework.py:70-87 | a list of conforming records prints nothing |
| ResponseCheck.BadTypeRaiseIff | homework.py:61-66 | `Exception('bad type current_date or homeworks in JSON')` escapes exactly when `current_date` is present and not an int and `homeworks` is present and not a list |
| ResponseCheck.MissingKeys | homework.py:61-70 | a missing `current_date`, or a non-int `current_date` with `homeworks` missing, prints only the top-level line; an int `current_date` with `homeworks` missing raises `KeyError('homeworks')` with nothing printed |
| ResponseCheck.TopLevelLineOnlyWhenMissing | homework.py:61-87 | the top-level line appears only when `current_date` is missing, or is not an int while `homeworks` is missing |
| ResponseCheck.ConformingResponseSilent | homework.py:52-87 | a response whose `homeworks` is a list of conforming records prints nothing and raises nothing, whatever `current_date` holds |

## Left out

- `get_api_answer` (homework.py:42-49) is left out: it is an HTTP request plus JSON decoding. The model starts from the decoded value.
- `send_message` (homework.py:38-39) is left out: its body is `pass`.
- `main` and the `__main__` block (homework.py:99-124) are left out. `main` is unfinished and refers to `telegram` and `time`, which are never imported. The `__main__` block calls `get_api_answer`, then `check_response` and `check_tokens`; only the last two are modelled.
- Reading the environment and `.env` (homework.py:10-15) is left out: the three tokens are parameters of `CheckTokens`. The Telegram token is read from the variable `TELEGRAM_TOKEN1`.
- ResponseCheck.StatusAndDate: `datetime.strptime(s, '%Y-%m-%dT%H:%M:%SZ')` is not defined. Whether it accepts a string is the parameter `validDate`.
- Homework.ParseStatus: Python's `str()` of a non-string value is not defined; it is the parameter `pyStr`. A JSON object is a Dafny map, which has no key order, so a dict `homework_name` is rendered only up to the order of its keys.
- ResponseCheck.Line: the text of a line is fixed only up to the key order of the dicts it prints. Every record line ends with `in homework <record>`, and Python prints a dict's keys in insertion order, which a JSON object modelled as a map does not keep.
- Homework.ParseStatus: the message text of a `TypeError` is not modelled; every type error is the single value `TypeError`. This applies equally to ResponseCheck.CheckResponse.
- ResponseCheck.CheckResponse: printing is not performed as I/O. The lines are returned as a sequence of diagnostics, whose text `Line` gives.
- JSON floats keep their literal text; no arithmetic is done on them.
- ResponseCheck.CheckResponse: iterating a non-empty dict or string given as `homeworks` always raises at its first element. The model therefore does not need, and does not model, the order of that iteration.
- The unit tests in homework_tests.py drive `main` with a mocked HTTP layer, so they fall outside this model.
