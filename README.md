# Employee accounts and per-user search configuration (news_web_doubao)

This project models the back-end core of `web.py`, a small web front end for a
news search assistant. Employees register (employee id, real name and password),
log in, and keep a personal search configuration with five fields:
`time_range`, `output_format`, `query`, `rounds` and `show_thinking`.
Everything in the configuration goes through one normaliser,
`_normalize_cfg`. It fills in defaults, keeps only the recognised time ranges,
coerces `rounds` to an integer clamped to 1..5, truncates the two text fields
to 500 and 2000 characters, and turns `show_thinking` into a boolean. Every
configuration that is stored or loaded has passed through it. The normaliser
can raise, and the model says when:
- a `time_range` whose lookup in the set of valid ranges raises (a list or a
  dict raises a TypeError; a set does not, being retried as a frozenset);
- `str()` of an integer text field with more than 4300 digits raises a
  ValueError.

Modules:

- `Wrappers` (`wrappers.dfy`): the `Option` datatype, and `Result`, a value or the message of a raised exception.
- `PyValues` (`pyvalues.dfy`): the Python values the normaliser receives
  (`None`, `bool`, `int`, `str`, and other objects such as floats, bytes or
  lists), plus `str()`, `bool()`, `int()` and `str.strip()` for them. For
  another object, what `str()`, `bool()` and `int()` give and whether a set
  lookup raises are fields of the value, as the object's own type defines them.
  - `str.strip()` removes the characters for which `str.isspace()` holds.
  - `int()` of a string skips the same whitespace except U+001C..U+001F, which
    CPython's integer parser does not skip. It accepts one optional sign,
    then ASCII digits with single underscores between them.
  - The model follows CPython 3.11 and later with the default conversion
    limit of 4300 digits. `int()` refuses longer literals, and `str()`
    refuses integers of magnitude 10^4300 or more.
  - Where Python raises, `int()` gives `None` and `str()` gives the
    exception's message.
- `Normalizer` (`normalizer.dfy`): `TIME_RANGE_OPTIONS` and `DEFAULT_CFG`.
  The normaliser appears twice:
  - `Normalize`, a pure function that is the specification; it returns the
    configuration or the message of the exception raised;
  - `NormalizeCfg`, a method that follows the source's own loop and
    step-by-step dictionary updates, and is proved equal to `Normalize`.
- `Accounts` (`accounts.dfy`): the `employee` table as a class
  `EmployeeTable`. It keeps rows keyed by auto-increment id, the next id, and
  a uniqueness invariant on `employee_id`. The class has `CreateUser`,
  `Authenticate`, `LoadUserConfig` and `SaveUserConfig`, with the source's
  messages and error branches.
  - A database failure is a parameter: `fault: Option<string>`. It stands for
    an exception raised by the driver, and its text is the exception's message.
  - The password hash is an ideal injective function of the password and a
    salt. The salt is a parameter.

Points where the code's behaviour is easy to misread:

- The accepted time ranges are `1day`, `7day` and `30day`, the second
  components of `TIME_RANGE_OPTIONS`. The display label map at web.py:342
  is keyed by `1d`, `7d` and `30d` instead, so of those only the default
  `7d` ever gets a label.
- The default time range is `"7d"`. That value is not an accepted option.
  `ValidRangesAre` and `TimeRangeBoundaries` prove that an unrecognised value
  falls back to `"7d"`, and that `"7d"` itself is kept only through that
  fallback.
- Only the employee id and the real name are stripped. The password is checked
  for emptiness as given: a password of blanks is accepted.
- `save_user_config` reports success even when no row has the given id. An
  `UPDATE` that matches nothing is not an error.
- `create_user` does not return the new id. `RegisterThenLogin` shows that the
  later login returns the id that the insert assigned.
- The normaliser is not total (see above). `create_user` calls it on `{}`
  and `load_user_config` on what the columns hold, and neither can make it
  raise. `save_user_config` calls it inside its `try`, so a raising
  normaliser gives 保存失败 and writes nothing.
- The `.get(key, default)` fallbacks after the loop of `_normalize_cfg` can
  never take their default. Each key has already been set by the loop, and
  the model relies on that (`ToDictHasEveryKey`).

## Model

| member | source | states |
|---|---|---|
| PyValues.Str | web.py:69-70 | `str()` raises only for an integer, and then with the digit-limit ValueError; a string is its own `str()` |
| PyValues.Truthy | web.py:71 | `bool()` of an integer or boolean is true exactly when its `int()` is not 0; of a string exactly when it is non-empty; of `None`, false |
| PyValues.ToInt | web.py:62-65 | `int()` is the identity on integers, 0 or 1 on booleans, raises on `None`, and parses strings as `ParseInt` does |
| PyValues.ParseInt | web.py:62-65 | `int()` of a blank or empty string raises, and any integer it returns is below 10^4300 in magnitude, so `str()` can print it back |
| PyValues.StripWith | web.py:80-81 | stripping a set of whitespace characters, as `str.strip()` does with the `isspace()` set and `int()` with its own: the result is the slice of the input left once only whitespace precedes and follows it; it neither starts nor ends with whitespace, is empty exactly when the input is all whitespace, and equals an input without outer whitespace |
| PyValues.Truncate | web.py:69-70 | slicing `[:n]`: the result is a prefix of the input and its length is the smaller of the input's length and n |
| PyValues.IntStrRoundTrip | web.py:62-69 | `int(str(n)) == n` whenever `str(n)` succeeds, negative n included, and `int()` refuses the spelling of n exactly when `str(n)` raises |
| PyValues.StrIntLimit | web.py:69-70 | `str(n)` of an integer succeeds exactly when its spelling has at most 4300 digits |
| PyValues.DecimalLengthBound | web.py:69-70 | a natural number has at most k decimal digits exactly when it is below 10^k, for k ≥ 1 |
| PyValues.ParseIntDigitLimit | web.py:62-65 | `int()` of a run of ASCII digits is the number it spells when it has at most 4300 digits, and raises otherwise |
| PyValues.ParseIntRejectsLetters | web.py:62-65 | `int("abc")` raises, so the coercion takes its failure branch |
| PyValues.ParseIntIgnoresBlanks | web.py:62-63 | `int(" 4 ")` is 4: whitespace around the digits is accepted |
| PyValues.ParseIntRejectsSeparatorPadding | web.py:62-65 | `"\x1c4".strip()` is `"4"`, but `int("\x1c4")` raises |
| Normalizer.KeysDistinct | web.py:40-46 | the five configuration keys are distinct, each is one of the keys of `DEFAULT_CFG`, and their names are distinct |
| Normalizer.ToDictHasEveryKey | web.py:40-54 | a configuration dictionary has exactly the five keys of `DEFAULT_CFG` |
| Normalizer.ValidRangesAre | web.py:34-41 | the accepted time ranges are exactly `1day`, `7day` and `30day`, and the default `7d` is not one of them |
| Normalizer.ClampRounds | web.py:66 | the clamped rounds lie in 1..5, equal the input inside that range, and go to the nearer bound outside it |
| Normalizer.CopyRecognised | web.py:50-54 | after the copy of `DEFAULT_CFG` and the loop, the dict holds, under each of the five keys, the input's entry when the input is a dict holding that key, and the default otherwise |
| Normalizer.Normalize | web.py:49-73 | the specification of `_normalize_cfg`: every configuration it returns is valid (accepted or default time range, text within 500/2000 characters, rounds in 1..5); the lemmas below it state each field and each raise |
| Normalizer.NormalizeCfg | web.py:49-73 | the loop over `DEFAULT_CFG`'s keys and the field-by-field fix-ups raise exactly when `Normalize` does, with its message, and otherwise return exactly the dictionary of its configuration |
| Normalizer.NormalizeFails | web.py:57-70 | the normaliser raises exactly when the time range is an object whose lookup in a set raises or a text field is an integer of magnitude at least 10^4300; the message is the TypeError or ValueError of the first of these in source order |
| Normalizer.NormalizeValid | web.py:57-71 | every configuration the normaliser returns is valid: an accepted or default time range, text within 500/2000 characters, rounds in 1..5 |
| Normalizer.NormalizeTimeRange | web.py:57-59 | a time range whose set lookup raises gives its TypeError; otherwise the time range is kept exactly when it is a string among the accepted values, and is `"7d"` otherwise |
| Normalizer.NormalizeRounds | web.py:62-66 | rounds are `int()` of the given value clamped to 1..5, or 2 when `int()` raises, with `int()` skipping only its own whitespace and refusing literals over 4300 digits, and taking of any other object (bytes, a float) the integer its type converts it to |
| Normalizer.NormalizeTextFields | web.py:69-70 | output format and query are `str()` of the given values cut to 500 and 2000 characters, and a `str()` that raises makes the normaliser raise |
| Normalizer.NormalizeShowThinking | web.py:71 | show_thinking is the truth value of the given value |
| Normalizer.NoRecognisedKeyGivesDefault | web.py:50-54 | an input that is not a dictionary, or has none of the five keys, normalises to `DEFAULT_CFG` |
| Normalizer.NormalizeDefaults | web.py:50-54 | a non-dictionary input of any kind, and the empty dictionary, normalise to `DEFAULT_CFG` |
| Normalizer.AbsentKeysKeepDefaults | web.py:50-54 | each field missing from the input takes its default value |
| Normalizer.UnrecognisedKeysIgnored | web.py:52-54 | adding entries under keys outside `DEFAULT_CFG` to a dictionary does not change the result |
| Normalizer.FixedPointIffValid | web.py:49-73 | a configuration handed back to the normaliser never makes it raise, and is returned unchanged if and only if it is valid |
| Normalizer.NormalizeIdempotent | web.py:49-73 | normalising the result of a successful normalisation again changes nothing |
| Normalizer.OnlyRounds | web.py:62-66 | a dict holding only `rounds`, of any kind of value, objects included, gives `DEFAULT_CFG` with rounds set to its clamped `int()`, or 2 when `int()` raises |
| Normalizer.OnlyTimeRange | web.py:57-59 | a dict holding only a string `time_range` gives `DEFAULT_CFG` with that time range when it is accepted, and `DEFAULT_CFG` otherwise |
| Normalizer.RoundsBoundaries | web.py:62-66 | rounds 0 become 1, rounds 6 become 5, and `None` becomes the default 2, the other fields keeping their defaults |
| Normalizer.RoundsFromLetters | web.py:62-65 | a rounds value of `"abc"` becomes the default 2 |
| Normalizer.RoundsFromPaddedDigits | web.py:62-66 | a rounds value of `" 4 "` becomes 4 |
| Normalizer.RoundsFromSeparatorPadding | web.py:62-65 | a rounds value of `"\x1c4"` becomes the default 2 |
| Normalizer.RoundsFromDigitRun | web.py:62-66 | a rounds string of digits becomes the clamped number it spells, or 2 when it has more than 4300 digits |
| Normalizer.RoundsFromObjects | web.py:62-66 | a rounds value of `b"4"` becomes 4, and the float 7.9, which `int()` truncates to 7, becomes 5 |
| Normalizer.TimeRangeBoundaries | web.py:57-59 | `"99day"` and `"7d"` give `DEFAULT_CFG`, and `"30day"` is kept |
| Normalizer.TimeRangeUnhashable | web.py:57-58 | a list as time range raises `unhashable type: 'list'` |
| Normalizer.TextBoundaries | web.py:69-70 | a 600-character output format is cut to its first 500 characters, and `None` becomes the text `"None"` |
| Normalizer.TextFromHugeInteger | web.py:70 | a query holding an integer of magnitude at least 10^4300 raises the ValueError of `str()` |
| Accounts.VerifyHashed | web.py:85-139 | a password verifies against its own hash, and against another password's hash only when the two are equal |
| Accounts.WithConfig | web.py:185-199 | writing the five configuration columns leaves the id, name and hash columns unchanged; `ReadWrittenColumns` states what the written columns hold |
| Accounts.RowConfig | web.py:167-173 | the dict built from a row's columns holds all five keys, so no default is used, and the normaliser never raises on it |
| Accounts.ConfigOfRow | web.py:167-176 | on what any row holds, NULL columns included, the normaliser never raises, and the configuration read is its valid result |
| Accounts.ReadWrittenColumns | web.py:167-199 | reading back the columns written from a valid configuration yields that configuration |
| Accounts.SaveLoadRoundTrip | web.py:148-204 | loading after saving a raw configuration the normaliser accepts yields its normalised form |
| Accounts.NewEmployee | web.py:85-109 | the row inserted at registration carries the given id, name and hash, and its configuration columns read back as `DEFAULT_CFG` |
| Accounts.EmployeeTable.FindEmployee | web.py:127-131 | the lookup by employee id finds the row with that id, or none exactly when no row has it |
| Accounts.EmployeeTable.CreateUser | web.py:79-116 | empty id, name or password is refused; a driver failure is reported with its text; a duplicate id is refused without change; otherwise one row with the next id is added and nothing else changes |
| Accounts.EmployeeTable.Insert | web.py:89-114 | the insert either fails on the unique employee id without any change, or adds the row under the next id and advances it |
| Accounts.EmployeeTable.Authenticate | web.py:119-142 | login succeeds exactly when the stripped id and the password are non-empty, the driver does not fail, the id exists and the password verifies; on success it returns that row's id; each failure carries its message |
| Accounts.EmployeeTable.LoadUserConfig | web.py:148-176 | the loaded configuration is always valid; it is the default on a driver failure or a missing row, and otherwise the row's normalised columns |
| Accounts.EmployeeTable.SaveUserConfig | web.py:179-204 | when the normaliser raises, failure is reported with its message and nothing changes; otherwise a driver failure is reported likewise; otherwise the row with that id, if any, gets the normalised configuration, the rest is unchanged, and success is reported |
| Accounts.EmployeeTable.SaveThenLoad | web.py:148-204 | the save succeeds exactly when the normaliser accepts the configuration; then a load of an existing row returns its normal form; when the save fails, the table is unchanged and the load returns what it returned before; a missing row loads as `DEFAULT_CFG` |
| Accounts.EmployeeTable.RegisterThenLogin | web.py:79-142 | registration without a driver failure succeeds exactly when the stripped id and name and the password are non-empty and the id is new; after it, logging in with the same credentials succeeds and returns the new row's id, whose configuration loads as `DEFAULT_CFG` |

## Left out

- The Streamlit pages (web.py:210-490): session state, login and registration forms, chat history, the search call, and the time-range label function (web.py:341-342). They are user interface, not part of this core.
- Token generation with `secrets.token_urlsafe`. It is randomness used only by the interface.
- The MySQL connection and the SQL text. Each statement is modelled by its effect on the table. A driver exception is the `fault` parameter, taken at the point of the statement. A failure that happens after the statement has taken effect, for example while closing the connection, is not modelled.
- The column collation of `employee_id`. MySQL may compare ids without regard to case or trailing spaces; the model compares them exactly. The table schema is not part of this model.
- Auto-increment gaps. MySQL may use up an id on a failed insert; the model advances the next id only on success.
- Argon2 itself. The hash (`IdealHash`) is an ideal injective function of the password and the salt. One-wayness and cost parameters are not modelled, and neither is an exception from `pwd_context.hash` (web.py:85, outside the `try`).
- Accounts.EmployeeTable.CreateUser: an integrity error is modelled only for a duplicate employee id. Other constraint violations the schema might raise are not modelled.
- `int()` of strings written with non-ASCII Unicode digits, such as `"١٢"`. Only ASCII digits are modelled. Floats, bytes and other objects are `PyObject`, whose `int()` result is a given field rather than computed: float truncation and byte parsing are not modelled.
- Objects whose `__str__`, `__bool__` or `__hash__` raise other than by being unhashable, and containers whose `str()` raises on an element. The `str()` text, truthiness, `int()` result and whether a set lookup raises are given as fields of `PyObject`.
- Dictionary keys that are not strings. A non-string key can never match a configuration key, so leaving such keys out changes no result.
- Python strings that hold lone surrogates. A Dafny `char` is a Unicode scalar value.
- Concurrent requests and threads.
- Str, ParseInt: the 4300-digit limit is the CPython default from 3.11 on. An interpreter without the limit, or one whose limit was changed with `sys.set_int_max_str_digits` or `PYTHONINTMAXSTRDIGITS`, converts other sizes; that setting is not modelled. `MsgStrDigitsLimit` is the wording of CPython 3.12 and later; 3.11 and the security releases that backported the limit print "Exceeds the limit (4300) for integer string conversion" instead, without the word "digits".
