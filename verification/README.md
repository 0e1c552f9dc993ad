# 1C OData timesheet client — a Dafny model

This project models the two pure layers of the `client_1c_timesheet` Python
package, a client for the OData interface of 1C accounting servers.

1. **The domain serialisation layer** (`client_1c_timesheet/models.py`). These
   are the entities the server exchanges as JSON objects:
   - `APIObjectID`, `NamedAPIObject`, `TimeGroup` and `Employee`;
   - `TimeSheetRecord` and `TimeSheetLine`;
   - `TimeSheet`;
   - `TimeEntry`: `truncate`, `to_dict` and `init_from_dict`.

   Each entity has an `init_from_dict` parser that reads wire keys, many of them
   Cyrillic, through `get_item`. Each also has a `to_dict` serialiser. Most
   serialisers drop every value that is falsy in Python. A timesheet line is
   flattened into three fixed keys plus five keys per day for days 1..31, with
   the day number written into the key name. Hours are stored as integer
   tenths.
2. **The response classifier** (`client_1c_timesheet/api.py`). This covers the
   query parameters each HTTP verb sends. It also covers how
   `APIRawResponse.parse`, `parse_json` and `parse_json_clockify_error` turn a
   status code and a body into one of these outcomes:
   - a returned JSON value;
   - an `APIServer404` or `APIServerException`;
   - an `APIResponseParseException`;
   - a Python built-in exception that escapes the library's hierarchy.

The server is a parameter: a function from the request sent to the raw response
received.

Modules:

| file | module | what it holds |
|---|---|---|
| json.dfy | `JsonValue` | decoded JSON, Python truthiness (`Falsy`), Python `==` (`PyEq`), the falsy-dropping filter |
| errors.dfy | `Errors` | `APIErrorResponse`, the exception classes and `isinstance`, the `Result` type |
| text.dfy | `Text` | `str(int)`, `int(str)` on digit strings, zero padding, Python slicing, `in` on strings |
| collections.dfy | `Collections` | renaming and restricting dict keys |
| models.dfy | `Models` | `get_item`, `APIObjectID`, `NamedAPIObject`, `TimeGroup`, `Employee` |
| timesheet_line.dfy | `TimeSheetLines` | `TimeSheetRecord`, `TimeSheetLine` and the 158-key line encoding |
| dates.dfy | `Dates` | calendar dates and naive timestamps, `isoformat()` and its inverse |
| timesheet.dfy | `TimeSheets` | `TimeSheet`: constructor normalisation and `to_dict` |
| time_entry.dfy | `TimeEntries` | `TimeEntry.truncate`, the optional fields of `to_dict` and `init_from_dict` |
| identity.dfy | `Identity` | `APIObjectID.__eq__` / `__ne__` over every entity |
| api.dfy | `Api` | query parameters, `parse_json`, `parse_json_clockify_error`, `parse` |

Modelling choices:
- **JSON numbers.** Python `int` and `float` both become `JNum(real)`. The client
  never tells them apart, and Python compares `8 == 8.0` as equal. Hours
  arithmetic is exact over `real`, and `int(hours*10)` is truncation toward
  zero.
- **Built-in exceptions.** A Python built-in exception that escapes the
  library's handlers (`KeyError`, `TypeError`, `AttributeError`, `ValueError`,
  `NameError`) is its own outcome, `Untyped`. `isinstance` against the library's classes
  never holds for it.
- **Constructor-only fields.** A `TimeSheet`'s dates, timestamp and
  organisation unit are `Option`s. The Python objects in those fields (`date`,
  `datetime`, `APIObjectID`) are always truthy, so `None` is the only falsy
  value they can hold. That leaves the document number as the only field the
  constructor can change.
- **Time entry instants.** A `TimeEntry`'s start and end are held as the wire
  text the datetime adapter would produce. As written, that adapter is reached
  through the name `ClockifyDatetime`, which the module never defines (the class
  it defines is `Client1CDatetime`). So `TimeEntry.to_dict` raises `NameError`
  on every call (client_1c_timesheet/models.py:489), and `init_from_dict`
  raises it whenever the interval's `start` is truthy
  (client_1c_timesheet/models.py:130). `TimeEntries.TimeEntryToDictAsWritten`,
  `TimeEntries.GetDatetime` and `TimeEntries.TimeEntryFromDict` model that
  behaviour. When `start` is falsy, `get_datetime` returns `None` before the
  undefined name is reached (client_1c_timesheet/models.py:126-128), so
  `init_from_dict` does run the optional-field reads and returns an entry.
  `TimeEntries.TimeEntryToDict` models the evidently intended serialiser, code
  the program as written never reaches. Renaming the adapter would not be
  enough: `Client1CDatetime.__str__` goes through `clockify_datetime`, which
  reads `clockify_datetime_format`, an attribute the class does not define (it
  defines `datetime_format`), so it raises `AttributeError`
  (client_1c_timesheet/models.py:47-49, 55-56). See "## Findings".

## Model

| member | source | states |
|---|---|---|
| Models.GetItem | client_1c_timesheet/models.py:92-97 | a present key gives its value; an absent key raises `ObjectParseException` naming the key when `raise_error` is set and gives `None` otherwise; a non-dict raises `TypeError` |
| Models.ObjectIdFromDict | client_1c_timesheet/models.py:203-205 | a dict gives the reference to its `Ref_Key` value; a missing key raises `ObjectParseException` naming it; a non-dict raises `TypeError` |
| Models.ObjectIdToDict | client_1c_timesheet/models.py:207-209 | the dict is exactly `{"Ref_Key": obj_id}` |
| Models.ObjectIdRoundTrip | client_1c_timesheet/models.py:203-209 | parsing the dict `to_dict` writes gives back the same identifier |
| Models.NamedFromDict | client_1c_timesheet/models.py:230-232 | a dict parses to its `Ref_Key` and `Description` values, else the parse error names the first missing key in lookup order |
| Models.NamedToDict | client_1c_timesheet/models.py:234-235 | the `APIObjectID` dict plus exactly `Description`, nothing else changed |
| Models.NamedRoundTrip | client_1c_timesheet/models.py:229-235 | parsing the dict `to_dict` writes gives back the same named object |
| Models.TimeGroupFromDict | client_1c_timesheet/models.py:245-250 | the four lookups in order: the first missing key is reported, otherwise the four values |
| Models.TimeGroupToDict | client_1c_timesheet/models.py:252-254 | only the four wire keys; each is present exactly when its value is truthy, and then holds it unchanged |
| Models.TimeGroupRoundTrip | client_1c_timesheet/models.py:245-254 | the group comes back exactly when none of its fields is falsy; otherwise parsing reports the first dropped key |
| Models.EmployeeFromDict | client_1c_timesheet/models.py:272-277 | the four lookups in order: the first missing key is reported, otherwise the employee with its person and organisation references |
| Models.EmployeeToDict | client_1c_timesheet/models.py:279-282 | only the four wire keys; each is present exactly when its value is truthy, and then holds it unchanged |
| Models.EmployeeRoundTrip | client_1c_timesheet/models.py:272-282 | the employee comes back exactly when none of its identifiers or its name is falsy; otherwise parsing reports the first dropped key |
| Models.EmptyReferenceIsDropped | client_1c_timesheet/models.py:279-282 | any employee with a falsy person identifier, the empty string included, loses that key and no longer parses; when its identifier and name are truthy the person key is the one reported |
| JsonValue.PyEqReflexive | client_1c_timesheet/models.py:185 | Python `==` on identifiers holds between every value and itself, nested lists and dicts included |
| JsonValue.PyEqSymmetric | client_1c_timesheet/models.py:185 | Python `==` on identifiers does not depend on the order of its operands |
| JsonValue.PyEqTransitive | client_1c_timesheet/models.py:185 | values equal under Python `==` to a common value are equal to each other |
| JsonValue.FilterFalsy | client_1c_timesheet/models.py:254 | the dict comprehension keeps exactly the keys whose values are truthy, each with its value unchanged |
| Identity.Equals | client_1c_timesheet/models.py:184-187 | comparing with `None` is false; comparing with an object is Python `==` on the two identifiers |
| Identity.NotEquals | client_1c_timesheet/models.py:189-194 | exactly the negation of `Equals` |
| Identity.EqualityByIdOnly | client_1c_timesheet/models.py:184-185 | objects of any class and any other fields compare as their identifiers do |
| Identity.SheetEqualsItsReference | client_1c_timesheet/models.py:184-185 | a timesheet equals a bare reference to its identifier |
| Identity.EqualsReflexive | client_1c_timesheet/models.py:184-194 | every object equals itself and is not unequal to itself |
| Identity.EqualsSymmetric | client_1c_timesheet/models.py:184-185 | equality does not depend on the order of comparison |
| Identity.EqualsTransitive | client_1c_timesheet/models.py:184-185 | objects equal to a common object are equal to each other |
| TimeSheetLines.HoursTenths | client_1c_timesheet/models.py:289 | a number is stored as `hours*10` truncated toward zero, exactly `hours*10` for a one-decimal value; a bool counts as 1 or 0; null, list and dict raise `TypeError` |
| TimeSheetLines.GetHours | client_1c_timesheet/models.py:295-296 | ten times the result is the stored tenths, and the result has at most one decimal place |
| TimeSheetLines.HoursExact | client_1c_timesheet/models.py:289-296 | a one-decimal input such as 8.3 is returned exactly by `get_hours` |
| TimeSheetLines.TenthsStable | client_1c_timesheet/models.py:289-296 | re-constructing a record from its own `get_hours()` stores the same tenths |
| TimeSheetLines.EightPointThree | tests/test_client.py:43 | 8.3 hours are stored as 83 tenths and read back as 8.3 |
| TimeSheetLines.MakeRecord | client_1c_timesheet/models.py:286-293 | construction fails only when the hours conversion fails, and otherwise keeps every argument |
| TimeSheetLines.ParseRecord | client_1c_timesheet/models.py:323-330 | one day's five lookups: the first missing key of that day is reported, then a bad hours value; on success every sub-field matches the dict |
| TimeSheetLines.ParseDays | client_1c_timesheet/models.py:323-331 | days parse in order and stop at the first failing day, whose error is reported; on success one matching record per day |
| TimeSheetLines.LineFromDict | client_1c_timesheet/models.py:319-331 | succeeds exactly when the three fixed keys are present and every day 1..31 parses; the result has 31 records for days 1..31 in order; a parse error names a line key the dict lacks |
| TimeSheetLines.ByDay | client_1c_timesheet/models.py:335 | the days are exactly the records' days, and each day maps to its last record |
| TimeSheetLines.LineToDict | client_1c_timesheet/models.py:334-344 | exactly the three fixed keys plus the five day keys of every record's day, with no truthiness filter; each day key holds that day's record value, the hours via `get_hours` |
| TimeSheetLines.LineKeyCount | client_1c_timesheet/models.py:319-342 | a complete line has 3 + 5 * 31 = 158 distinct keys |
| TimeSheetLines.KeyNameInjective | client_1c_timesheet/models.py:337-342 | distinct fields or days never share a wire key |
| TimeSheetLines.LineRoundTrip | client_1c_timesheet/models.py:319-344 | parsing the dict of a line with 31 records for days 1..31 rebuilds that line |
| TimeSheetLines.ParsedLineKeys | client_1c_timesheet/models.py:319-344 | serialising a parsed line gives exactly the 158 line keys |
| TimeSheetLines.ParsedLineToDict | client_1c_timesheet/models.py:319-344 | serialising a parsed line gives back the parsed values, the hours as `int(hours*10)/10` |
| TimeSheetLines.ParsedLineToDictExact | client_1c_timesheet/models.py:319-344 | when every hours value has at most one decimal place, serialising the parsed line gives the input dict restricted to the 158 line keys |
| TimeSheets.Construct | client_1c_timesheet/models.py:387-389 | a falsy number becomes `None`, a truthy one is kept, and no other field changes |
| TimeSheets.ConstructIdempotent | client_1c_timesheet/models.py:387-389 | construction leaves a normalised timesheet unchanged, so applying it twice is applying it once |
| TimeSheets.ConstructKeepsDict | client_1c_timesheet/models.py:387-416 | clearing a falsy number does not change what `to_dict` writes |
| TimeSheets.TimeSheetToDict | client_1c_timesheet/models.py:404-416 | every document entry is present exactly when its value is truthy, and then holds it unchanged |
| TimeSheets.TimeSheetDictKeys | client_1c_timesheet/models.py:410-416 | nothing but the nine document keys is written |
| TimeSheets.TimeSheetDictIds | client_1c_timesheet/models.py:409-416 | identifier, number and organisation are kept exactly when truthy; the organisation unit exactly when it is set with a truthy identifier |
| TimeSheets.TimeSheetDictDates | client_1c_timesheet/models.py:405-416 | each date and the timestamp is present exactly when set, as its ISO text |
| TimeSheets.TimeSheetDictLines | client_1c_timesheet/models.py:414-416 | `ДанныеОВремени` is omitted for an empty list and otherwise holds each line's dict in order |
| TimeSheets.LinesRoundTrip | client_1c_timesheet/models.py:414 | every written line parses back to the line it came from |
| Dates.IsoFormat | client_1c_timesheet/models.py:407 | `isoformat()` of a naive timestamp is 19 characters, or 26 with a non-zero microsecond |
| Dates.DateField | client_1c_timesheet/models.py:405 | an unset date is written as `None`; a set one as the 19-character text of its midnight |
| Dates.TimestampField | client_1c_timesheet/models.py:407 | an unset timestamp is written as `None`; a set one as its ISO text of at least 19 characters |
| Dates.DateText | client_1c_timesheet/models.py:405-408 | a date is written as ten characters from which year, month and day are read back |
| Dates.IsoFormatRoundTrip | client_1c_timesheet/models.py:405-408 | reading back the ISO text of a timestamp gives the same timestamp |
| Dates.IsoFormatInjective | client_1c_timesheet/models.py:405-408 | distinct timestamps are written as distinct text |
| Dates.DateFieldRoundTrip | client_1c_timesheet/models.py:405-408 | a written date reads back as the start of that day |
| TimeEntries.Truncate | client_1c_timesheet/models.py:451-455 | a message of at most `length` characters is returned unchanged; for `3 <= length < len(msg)` the result is the first `length - 3` characters plus `...`, exactly `length` long |
| TimeEntries.TruncateIdempotent | client_1c_timesheet/models.py:451-455 | truncating again to the same length of at least 3 changes nothing |
| TimeEntries.TruncateDefault | client_1c_timesheet/models.py:451-455 | with the default length of 30, the result is never longer than 30 and a message that fits is unchanged |
| TimeEntries.TruncateShortLength | client_1c_timesheet/models.py:451-455 | for every `length` below 3 and every message: one that does not fit keeps all but its last `3 - length` characters plus `...`, longer than `length`; a negative `length` cuts every non-empty message; one that fits is unchanged |
| TimeEntries.TruncateToZero | client_1c_timesheet/models.py:451-455 | with length 0, "abcdef" becomes "abc..." |
| TimeEntries.TimeEntryToDict | client_1c_timesheet/models.py:486-501 | only the eight entry keys, never a falsy value; identifier, start, description and user are kept exactly when truthy |
| TimeEntries.TimeEntryDictReferences | client_1c_timesheet/models.py:495-498 | project and task identifiers are written exactly when the reference is set and its identifier truthy |
| TimeEntries.TimeEntryDictTags | client_1c_timesheet/models.py:499-500 | the tag identifiers are written in order exactly when the tag list is non-empty |
| TimeEntries.TimeEntryDictEnd | client_1c_timesheet/models.py:493-494 | the end is written exactly when it is set and its text is non-empty |
| TimeEntries.OptionalTags | client_1c_timesheet/models.py:472-473 | absent or falsy tags give `None`; a non-empty list gives one reference per element, in order |
| TimeEntries.ReadOptionalFields | client_1c_timesheet/models.py:463-473 | the optional reads succeed exactly on a dict whose tags are absent, falsy, a list or a string; the user and description are the values or `None`, project and task a reference exactly when the value is present and truthy, the tags as `OptionalTags` reads them |
| TimeEntries.OptionalFieldsRoundTrip | client_1c_timesheet/models.py:463-501 | reading the optional fields back from `to_dict` recovers them, except values the truthiness filter dropped |
| TimeEntries.TimeEntryToDictAsWritten | client_1c_timesheet/models.py:486-489 | every call raises the built-in `NameError` |
| TimeEntries.ToDictAsWrittenFails | client_1c_timesheet/models.py:486-501 | the as-written serialiser never returns the dict the intended one builds, and its error is outside `Client1CException` |
| TimeEntries.GetDatetime | client_1c_timesheet/models.py:126-130 | the lookup's errors are passed on; a falsy value gives `None`; a truthy one raises `NameError`, so no instant is ever returned |
| TimeEntries.TimeEntryFromDict | client_1c_timesheet/models.py:458-484 | `timeInterval` and `id` are required in that order and `start` inside the interval; a truthy `start` raises `NameError`; success needs a falsy `start`, iterable tags and a falsy or absent `end`, and then gives the identifier and the optional fields |
| TimeEntries.ToDictLacksInterval | client_1c_timesheet/models.py:458-501 | the dict the intended `to_dict` writes has no `timeInterval`, so `init_from_dict` rejects it naming that key |
| Errors.ServerExceptionHierarchy | client_1c_timesheet/api.py:256-282 | `APIServerException` catches exactly the server-reported errors, 404 included; `APIServer404` catches only 404; built-in errors are outside `Client1CException` |
| Api.GetParams | client_1c_timesheet/api.py:50-53 | the caller's keys plus `$format`, which is always `json`; every other caller parameter is kept unchanged |
| Api.GetParamsDefaults | client_1c_timesheet/api.py:50-53 | no parameters or an empty dict send exactly what the write verbs send; the merge is idempotent |
| Api.GetRequest | client_1c_timesheet/api.py:50-57 | a `get` sends the path, no body, and the merged parameters |
| Api.WriteRequest | client_1c_timesheet/api.py:80-85 | a write request carries its body and exactly `{"$format": "json"}` |
| Api.Call | client_1c_timesheet/api.py:80-86 | a call returns a value only when the server answered 200 or 201 |
| Api.CallsAskForJson | client_1c_timesheet/api.py:50-58 | every verb asks for JSON, and what a call returns depends only on the response, not on the verb |
| Api.ParseJson | client_1c_timesheet/api.py:205-209 | a decodable body is returned; any other raises `APIResponseParseException` with the text |
| Api.ErrorMessage | client_1c_timesheet/api.py:231-235 | succeeds exactly when `message` is a dict holding `value`; a missing `message` or `value` raises `APIResponseParseException`; a non-dict `message` raises `APIResponseParseException` when the `in` test finds no "value" and `TypeError` otherwise, from the lookup or from the `in` test itself |
| Api.ParseErrorEnvelope | client_1c_timesheet/api.py:228-239 | succeeds exactly on a well-formed envelope, with its code and message; a missing code is reported only after the message passed; a missing `odata.error` is a `KeyError` |
| Api.ErrorRoundTrip | client_1c_timesheet/api.py:228-239 | an envelope a server sends is read back with the same code and message |
| Api.MessageCheckedBeforeCode | client_1c_timesheet/api.py:231-238 | every `odata.error` dict without `message` reports the missing message, whatever else it holds; lacking the code too, the missing code is never the failure reported |
| Api.Parse | client_1c_timesheet/api.py:172-183 | a value is returned only on 200 or 201 with a dict body, unwrapped from `value` when present; other statuses raise the envelope's error, 404 by Python `==` selecting `APIServer404` |
| Api.ServerErrorClassification | client_1c_timesheet/api.py:172-183 | `APIServerException` is raised exactly for a non-success status with a well-formed envelope, `APIServer404` exactly when its code equals 404; both carry the decoded code and message |
| Api.InvalidJsonOnEitherPath | client_1c_timesheet/api.py:172-178 | an undecodable body raises `APIResponseParseException` whatever the status |
| Api.SuccessRoundTrip | client_1c_timesheet/api.py:172-174 | a success body wrapped in `value` comes back unwrapped |
| Api.NotFoundNeedsNumericCode | client_1c_timesheet/api.py:180-183 | the number 404 selects `APIServer404`; the string "404" gives `APIServerException` |
| Api.ListBodyOnSuccess | client_1c_timesheet/api.py:172-173 | a list body on success fails on `.keys()` with a built-in `AttributeError` |
| Api.MissingEnvelopeIsKeyError | client_1c_timesheet/api.py:230-239 | an error body without `odata.error` escapes as a `KeyError`, not a library exception |
| Api.StringMessageIsTypeError | client_1c_timesheet/api.py:231-232 | every string message containing "value" passes the membership test and fails the lookup with `TypeError`; every other string message is reported as a missing message |
| Api.NoValueMessage | client_1c_timesheet/api.py:231-232 | the message "no value" raises `TypeError` |

## Left out

- HTTP itself is not modelled: `requests`, URL concatenation and basic auth (client_1c_timesheet/api.py:54-57, 80-85, 107-112, 134-139). The server is a function parameter of `Api.Call`.
- `response.json()` is taken as given: a body either decodes to a JSON value or does not. JSON text syntax is not modelled.
- client_1c_timesheet/decorators.py: `except_connection_error` only relabels a `requests` connection error, and the rate-limit throttle is timing behaviour.
- client_1c_timesheet/exceptions.py is not part of this model; `Client1CException` is taken as the root of the library's classes.
- `Client1CDatetime` is left out (client_1c_timesheet/models.py:16-56): it converts between time zones with dateutil, and as written its `str()` raises `AttributeError` on the undefined `clockify_datetime_format`. The intended `to_dict` takes the adapter's wire text as input, and no parser of instants is modelled, since as written none is ever reached.
- TimeEntries.TimeEntryToDict: models `to_dict` with both defects of the datetime adapter corrected, the undefined name at line 489 and the undefined format attribute at line 49; with only the first corrected, every call would still raise `AttributeError`.
- Error outcomes keep only what decides the outcome: the missing key (`ObjectParse`), the status and decoded `ErrorResponse` (`ServerError`, `NotFound`), the failure kind (`ResponseParse`). The message strings built at client_1c_timesheet/models.py:95, client_1c_timesheet/api.py:179 and client_1c_timesheet/api.py:234-237, which embed the offending dict or the response text, are not modelled.
- `TimeSheet.init_from_dict` is left out (client_1c_timesheet/models.py:392-402). It parses with `datetime.fromisoformat` and indexes `ДанныеОВремени` directly, so a missing list there is a raw `KeyError`. Only the text `to_dict` writes, and reading that text back, are modelled.
- Dates.FromIsoFormat: accepts only the two layouts `isoformat()` writes for a naive timestamp, not everything `datetime.fromisoformat` accepts. Time zones are not modelled.
- TimeSheets.Construct: `datetime_stamp` and `orgunit` are `Option`s, because the objects they hold are always truthy in Python. A falsy non-`None` value of another type in those arguments is not modelled.
- TimeSheetLines.HoursTenths: a string is accepted only when it is all ASCII digits. Strings `int()` would also accept after repetition, such as ones with underscores between digit groups or non-ASCII digits, are reported as `ValueError`.
- Floating-point rounding, `inf` and `nan` are not modelled: hours are exact reals.
- TimeEntries.OptionalTags: a dict-valued `tagIds` is reported as `TypeError`. Python would iterate its keys in insertion order, and key order is not modelled.
- `__str__` and `__hash__` methods are left out; they are presentation and Python hashing.

## Findings

| source | as written | input that shows it | evidently intended | confidence | as-written member | corrected member |
|---|---|---|---|---|---|---|
| client_1c_timesheet/models.py:489 | `to_dict` calls `ClockifyDatetime`, a name the module never defines, so every call raises `NameError` | any time entry | the module's own adapter `Client1CDatetime`, whose text is written for the start and end; that adapter needs a second correction, since its `__str__` reads `clockify_datetime_format` (line 49) where the class defines `datetime_format` (line 22) | high; not executed | TimeEntries.ToDictAsWrittenFails | TimeEntries.TimeEntryToDict |
