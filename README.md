# SMS-Activate client, modelled in Dafny

`async_smsactivate/api.py` is a thin client for the SMS-Activate HTTP API:
rent a phone number, poll it for the code, manage rentals. It has two
classes, a blocking one (`SMSActivateAPI`, on `requests`) and an
asynchronous one (`AsyncSMSActivateAPI`, on `aiohttp`). Both classes work
the same way:

- every public method builds a dictionary of query parameters step by step:
  `action`, and each argument its guard admits;
- each method sends the dictionary with one HTTP GET to a fixed endpoint;
- the reply body goes to `response(action, body)`, which turns it into a
  Python value.

`response` runs three checks in order:

1. a known error token gives `{"error", "message"}`, the message taken from
   a constant table;
2. an empty body gives the same shape, with the message `Server error, try again`;
3. otherwise an `if`/`elif` chain on the action picks a rule:
   - parse the body as JSON;
   - cut a fixed-length prefix;
   - split `<id>:<phone>` and convert both parts with `int`;
   - rename `msg` to `message` in a parsed document;
   - return the body unchanged.

Two pure translators map activation and rental status codes to
descriptions.

The model has five modules, one file each:

- `wrappers.dfy`, `Wrappers`: `Option` and `Result`.
- `text.dfy`, `Text`: the Python string operations the decoder relies on.
  - slicing `s[n:]` (`Drop`);
  - `str.split` (`Split`) and its inverse `Join`;
  - `int` on a decimal string (`ParseNat`), with its inverse `NatToString`;
  - substring `in` (`Contains`).
- `tables.dfy`, `Tables`: the three constant tables, copied entry for entry.
  - `check_error`, `get_error`, `activationStatus` and `rentStatus` as functions.
- `decoder.dfy`, `Decoder`: `response` as a total function `Response`.
  - Its result is a `Result` of a reply value, or of the Python exception
    the branch raises.
  - `json.loads` is a parameter: a function from body text to an optional
    JSON value.
- `requests.dfy`, `Requests`: the request methods of both classes. There is
  one `Client` class, whose `variant` says which of the two Python classes it is.
  - **Building.** Each request method builds its parameter map step by step,
    one `Put` call per `if arg: params[key] = arg` of the source.
  - **Specification of a builder.** Each builder's ensures states that it
    produces `Build(Start(action), [Arg(key, arg, guard), …])`:
    - the list holds its guarded insertions, in source order;
    - `Build` is the specification function that folds them.
  - **Lemmas about `Build`.** They say which keys end up in the map, and
    with which values.
  - **Sending.** `Send` is the shared tail: the asynchronous client inserts
    its key (`__make_request`). Then the HTTP GET, a `transport` function
    held by the client, produces the body, and `Response` decodes it.

The blocking client starts its map with `api_key` and `action`. The
asynchronous one starts with `action` only and inserts `api_key` when it
sends. `VariantsSendTheSameQuery` proves that the two end with the same map.

The code's 11-character cut for `getAdditionalService` fits a reply
beginning `ADDITIONAL:`. A reply beginning `ACCESS_SERVICE:` keeps `ICE` at
the head of its first segment after the cut, so it fails to decode with
`ValueError`; `Decoder.AccessServiceFails` proves it.

The asynchronous class's decoder (`async_smsactivate/api.py:531-640`) is the
same text as the blocking class's (`async_smsactivate/api.py:82-191`), with
type annotations added. The asynchronous `check_error`, `get_error`,
`activationStatus` and `rentStatus` (lines 521-525 and 642-646) compute the
same values as lines 70-76 and 193-197, and its tables (lines 469-516) hold
the same entries as lines 15-65. The model cites the blocking copy.

## Model

| member | source | states |
|---|---|---|
| Text.Drop | async_smsactivate/api.py:94 | `s[n:]` (also at lines 99, 104 and 132): empty when `n` is at or past the end, otherwise the suffix with `s == s[..n] + r` |
| Text.Contains | async_smsactivate/api.py:184 | `'msg' in result` on a string: true exactly when the needle starts at some position of the string |
| Text.ParseNat | async_smsactivate/api.py:104-107 | `int(...)` on a segment succeeds exactly when the segment is a non-empty string of decimal digits |
| Text.NatToString | async_smsactivate/api.py:104-107 | the decimal form of a number is non-empty, all digits, and has no leading zero unless it is `0` |
| Text.ParseNatToString | async_smsactivate/api.py:104-107 | `int(str(n)) == n` for every natural number |
| Text.NatValue | async_smsactivate/api.py:104-107 | the digit value of `str(n)` is `n` |
| Text.ParseNatOfCanonical | async_smsactivate/api.py:104-107 | a digit string without a leading zero is the decimal form of its value |
| Text.NonZeroLeadIsNonZero | async_smsactivate/api.py:104-107 | a digit string that does not start with `0` has a non-zero value |
| Text.DigitsAreColonFree | async_smsactivate/api.py:104-105 | a digit string holds no `:`, so it is never split apart |
| Text.Split | async_smsactivate/api.py:105 | `str.split(':')` yields at least one segment, and no segment holds the separator |
| Text.JoinSplit | async_smsactivate/api.py:105 | joining the segments of a split with the separator gives back the string |
| Text.SplitJoin | async_smsactivate/api.py:105 | splitting a join of separator-free segments gives back the segments |
| Text.SplitAtSep | async_smsactivate/api.py:105 | a string that starts with the separator splits into an empty first segment and the split of the rest |
| Text.SplitFree | async_smsactivate/api.py:105 | a separator-free head followed by nothing or by a separator is the first segment, and the rest splits on its own |
| Tables.Errors | async_smsactivate/api.py:30-65 | the 31 error tokens and their messages, entry for entry |
| Tables.Codes | async_smsactivate/api.py:15-22 | the activation status codes and their descriptions |
| Tables.RentCodes | async_smsactivate/api.py:24-28 | the rental status codes and their descriptions |
| Tables.Lookup | async_smsactivate/api.py:70-76 | `dict.get`: `Some` exactly for the keys of the table, with the table's value |
| Tables.CheckError | async_smsactivate/api.py:70-73 | `check_error` is true exactly for the keys of the error table |
| Tables.GetError | async_smsactivate/api.py:75-76 | `get_error` gives a message exactly for the tokens of the error table, and then the table's message |
| Tables.ActivationStatus | async_smsactivate/api.py:193-194 | the reply echoes the status, with a message exactly when the status is an activation code, and then that code's description |
| Tables.RentStatus | async_smsactivate/api.py:196-197 | a description exactly when the status is a rental code, and then that code's description |
| Tables.ErrorTokensAreColonFree | async_smsactivate/api.py:30-65 | no error token is empty or holds a colon |
| Tables.ErrorTokenListed | async_smsactivate/api.py:30-65 | every key of the error table is one of the 31 tokens |
| Tables.ListedTokenIsColonFree | async_smsactivate/api.py:30-65 | none of the 31 tokens is empty or holds a colon |
| Tables.ErrorTokens1AreColonFree | async_smsactivate/api.py:31-41 | none of the first eleven tokens is empty or holds a colon |
| Tables.ErrorTokens2AreColonFree | async_smsactivate/api.py:42-51 | none of the next ten tokens is empty or holds a colon |
| Tables.ErrorTokens3AreColonFree | async_smsactivate/api.py:52-64 | none of the last ten tokens is empty or holds a colon |
| Tables.ResendNeedsTrailingSpace | async_smsactivate/api.py:18 | the resend code is described only under its key with the trailing space; `STATUS_WAIT_RESEND` without it has no description |
| Tables.StatusExamples | async_smsactivate/api.py:15-28 | `STATUS_OK` is "Code received"; `STATUS_FINISH` is a rental code; `STATUS_OK` is not one |
| Decoder.IdPhone | async_smsactivate/api.py:105-107 | the pair parses exactly when both of the first two `:`-segments are decimal numbers. A bad first segment raises `ValueError`; a missing second segment raises `IndexError`; the values are those of the segments |
| Decoder.RenameMsg | async_smsactivate/api.py:184-185 | afterwards `msg` is absent. `message` holds the old `msg`, the key set changes only by those two, all other fields are kept, and a map without `msg` is unchanged |
| Decoder.RuleOf | async_smsactivate/api.py:89-191 | the `elif` chain from action to decoding rule; what it maps each action to is stated by `Decoder.DispatchTable` |
| Decoder.DispatchTable | async_smsactivate/api.py:89-191 | the 18 JSON actions parse and pass through, the two balance actions cut the prefix, `getNumber` and `getAdditionalService` take the pair rules, `createTaskForCall` renames, and exactly the actions the chain does not name keep the body; each as an if-and-only-if |
| Decoder.TaskResult | async_smsactivate/api.py:183-186 | an object is renamed; a null, boolean or number raises `TypeError`; a list raises `TypeError` exactly when it holds the string `msg`; a string raises `AttributeError` exactly when it contains `msg`; any other value that succeeds is returned unchanged |
| Decoder.Response | async_smsactivate/api.py:82-191 | an error token yields its table entry, whatever the action. A failure happens only for a non-empty, non-token body under a pair or JSON rule. An error reply carries the body as its error, and the body was a token or empty |
| Decoder.StatusTokensAreErrors | async_smsactivate/api.py:82-87 | `STATUS_CANCEL` and `STATUS_FINISH` are reported as errors with their table messages, for every action |
| Decoder.EmptyBodyIsServerError | async_smsactivate/api.py:86-87 | an empty body is the server error for every action |
| Decoder.ColonBodyIsDispatched | async_smsactivate/api.py:84-87 | a body holding a colon is never an error token and never empty, so it reaches the action's rule |
| Decoder.BalanceNeverFails | async_smsactivate/api.py:93-101 | the balance actions never fail; the balance is the body past 15 characters, and empty for a shorter body |
| Decoder.BalanceExample | async_smsactivate/api.py:93-96 | `ACCESS_BALANCE:12.50` decodes to the balance `12.50` |
| Decoder.IdPhoneRoundTrip | async_smsactivate/api.py:105-107 | `<id>:<phone>`, followed by nothing or by more `:`-segments, parses to exactly that pair |
| Decoder.NumberRoundTrip | async_smsactivate/api.py:103-109 | for `getNumber`, any 14-character prefix followed by `<id>:<phone>` decodes to that activation id and phone |
| Decoder.ServiceRoundTrip | async_smsactivate/api.py:131-137 | for `getAdditionalService`, any 11-character prefix followed by `<id>:<phone>` decodes to that id and phone |
| Decoder.BadIdFails | async_smsactivate/api.py:105-106 | a first segment that is not a number raises `ValueError`, whatever follows |
| Decoder.AccessServiceFails | async_smsactivate/api.py:131-134 | a `getAdditionalService` body that starts with `ACCESS_SERVICE:` always fails with `ValueError` |
| Decoder.PairFailure | async_smsactivate/api.py:103-137 | a pair rule fails exactly when, past its prefix, there are fewer than two segments or one of the first two is not a number |
| Decoder.JsonPassThrough | async_smsactivate/api.py:89-91 | a JSON action returns exactly the parsed document, and fails with `JSONDecodeError` exactly when the body does not parse |
| Decoder.TaskRenamesOnlyMsg | async_smsactivate/api.py:182-186 | `createTaskForCall` on a JSON object succeeds with exactly the renamed object: `msg` is gone, `message` holds its value, every other field is kept, and an object without `msg` comes back unchanged |
| Decoder.RenameMsgIdempotent | async_smsactivate/api.py:184-185 | renaming twice is renaming once |
| Decoder.UndispatchedIsRaw | async_smsactivate/api.py:190-191 | an action outside the chain gets a non-token, non-empty body back unchanged |
| Decoder.StatusActionsAreRaw | async_smsactivate/api.py:190-191 | `setStatus`, `getStatus` and `getFullSms` have no rule of their own |
| Requests.Truthy | async_smsactivate/api.py:221-222 | Python truthiness of an argument: false exactly for `None`, `False`, `0` and `""` |
| Requests.Included | async_smsactivate/api.py:221-236 | an `if arg:` guard sends exactly the truthy values, an `is not None` guard every value but `None`, an unconditional write everything; no guard ever sends `None` |
| Requests.NameInjective | async_smsactivate/api.py:199-458 | distinct parameters go out under distinct wire names, so keying the query by parameter loses nothing |
| Requests.BuildKeeps | async_smsactivate/api.py:199-458 | a key that no guarded insertion writes keeps its presence and value from the starting map |
| Requests.BuildKeys | async_smsactivate/api.py:199-458 | the built map's keys are the starting keys plus the keys of the admitted arguments; nothing else is sent |
| Requests.BuildField | async_smsactivate/api.py:199-458 | with distinct keys, each argument is present exactly when its guard admits it, and then holds its value |
| Requests.BuildAfterInsert | async_smsactivate/api.py:649 | inserting a key before the guarded insertions or after them gives the same map, when none of them writes that key |
| Requests.ZeroIsKeptOnlyWhenNotNone | async_smsactivate/api.py:235-236 | `country=0` is sent (`is not None`), while `id=0` under the truthiness guard of line 285 is dropped, onto any map |
| Requests.VariantsSendTheSameQuery | async_smsactivate/api.py:648-651 | the blocking payload equals the asynchronous payload with the key inserted, for every list of insertions that leave the key alone |
| Requests.Client.constructor | async_smsactivate/api.py:10-13 | the client holds its key, its variant, its transport and its JSON parser |
| Requests.Client.Start | async_smsactivate/api.py:220 | the starting literal names the action. The blocking one holds exactly the key and the action, the asynchronous one exactly the action |
| Requests.Client.BuiltAddressed | async_smsactivate/api.py:199-458 | every builder's map names its action, and holds the key exactly when the client is the blocking one |
| Requests.Client.BuiltFields | async_smsactivate/api.py:199-458 | with distinct keys, every argument of a builder lands as its guard says |
| Requests.Client.GetNumberFields | async_smsactivate/api.py:218-238 | `getNumber` sends `country` whenever it is not `None`, and each other argument exactly when it is truthy |
| Requests.Client.Put | async_smsactivate/api.py:221-222 | one guarded insertion advances the fold: building the remaining insertions from the new map equals building all of them from the old one |
| Requests.Client.Send | async_smsactivate/api.py:648-651 | the blocking client sends its map unchanged; the asynchronous client always writes its key, whatever the map held (line 649). For a builder's map that adds the key and changes nothing else, and the reply is `Response`, for the action the map names, of the transport's body |
| Requests.Client.GetBalance | async_smsactivate/api.py:199-202 | the map is `Build` of the starting literal with no insertions |
| Requests.Client.GetBalanceAndCashBack | async_smsactivate/api.py:204-207 | the map is `Build` of the starting literal with no insertions |
| Requests.Client.GetNumbersStatus | async_smsactivate/api.py:209-216 | the map is `Build` of `country` (not `None`) then `operator` (truthy) |
| Requests.Client.GetNumber | async_smsactivate/api.py:218-241 | the map is `Build` of the nine arguments in source order, `country` by `is not None`, the rest by truthiness |
| Requests.Client.GetNumberV2 | async_smsactivate/api.py:243-266 | the same nine insertions as `getNumber`, for `getNumberV2` |
| Requests.Client.GetMultiServiceNumber | async_smsactivate/api.py:268-281 | `service` goes out as `multiService`, then `forward`, `operator`, `ref` (truthy) and `country` (not `None`) |
| Requests.Client.SetStatus | async_smsactivate/api.py:283-292 | the map is `Build` of `id`, `forward`, `status`, each when truthy |
| Requests.Client.GetStatus | async_smsactivate/api.py:294-299 | the map is `Build` of `id` when truthy |
| Requests.Client.GetFullSms | async_smsactivate/api.py:301-306 | the map is `Build` of `id` when truthy |
| Requests.Client.GetPrices | async_smsactivate/api.py:308-315 | the map is `Build` of `service` (truthy) then `country` (not `None`) |
| Requests.Client.GetCountries | async_smsactivate/api.py:317-320 | the map is `Build` of the starting literal with no insertions |
| Requests.Client.GetAdditionalService | async_smsactivate/api.py:336-343 | the map is `Build` of `id` then `service`, each when truthy |
| Requests.Client.GetQiwiRequisites | async_smsactivate/api.py:331-334 | the map is `Build` of the starting literal with no insertions |
| Requests.Client.GetRentServicesAndCountries | async_smsactivate/api.py:345-355 | the map is `Build` of `time`, `operator` (truthy) then `country` (not `None`) |
| Requests.Client.GetRentNumber | async_smsactivate/api.py:357-371 | the map is `Build` of `service`, `time`, `operator` (truthy), `country` (not `None`), `url` (truthy) |
| Requests.Client.GetRentStatus | async_smsactivate/api.py:373-379 | the map is `Build` of `id` when truthy |
| Requests.Client.SetRentStatus | async_smsactivate/api.py:381-389 | the map is `Build` of `id` then `status`, each when truthy |
| Requests.Client.GetRentList | async_smsactivate/api.py:391-394 | the map is `Build` of the starting literal with no insertions |
| Requests.Client.ContinueRentNumber | async_smsactivate/api.py:396-404 | `id` when truthy, then `time` under the name `rent_time` when truthy |
| Requests.Client.GetContinueRentPriceNumber | async_smsactivate/api.py:406-412 | the map is `Build` of `id` when truthy |
| Requests.Client.GetTopCountriesByService | async_smsactivate/api.py:414-422 | the map is `Build` of `service` then `freePrice`, each when truthy |
| Requests.Client.GetIncomingCallStatus | async_smsactivate/api.py:424-430 | `id` goes out under the name `activationId`, when truthy |
| Requests.Client.GetOperators | async_smsactivate/api.py:432-438 | the map is `Build` of `country` when not `None` |
| Requests.Client.GetActiveActivations | async_smsactivate/api.py:440-443 | the map is `Build` of the starting literal with no insertions |
| Requests.Client.CreateTaskForCall | async_smsactivate/api.py:445-449 | `activationId` is written unconditionally, whatever its value |
| Requests.Client.GetOutgoingCalls | async_smsactivate/api.py:451-458 | the map is `Build` of `activationId` then `date`, each when not `None` |

## Left out

- The HTTP GET, the endpoint URL, `aiohttp` sessions and `close`, and `async`/`await` are left out. The transport is a function the client holds, from the query map to the body text, so every call is modelled as if it succeeded and returned text.
- `json.loads` is a parameter that returns `None` where Python raises. Its parsing is not modelled.
- `__debugLog`, `debug_mode` and `print` are left out; they do not affect any result.
- `version()` is left out: a constant string.
- ParseNat: accepts ASCII decimal digits only. Python's `int` also takes surrounding whitespace, a sign, `_` separators and non-ASCII digits. A reply using those forms decodes in Python and fails in the model. In the other direction, Python (since 3.11, and in the security releases 3.10.7, 3.9.14, 3.8.14 and 3.7.14) by default limits `int` and `str` to 4300 decimal digits, so a longer segment fails with `ValueError` in Python while the model accepts it. `ParseNatToString`, `IdPhoneRoundTrip`, `NumberRoundTrip` and `ServiceRoundTrip` therefore hold for Python only for numbers below that length.
- `Requests.Client` models both Python classes, told apart by `variant`. Their methods are identical apart from the starting literal and `__make_request`, so each public method is modelled once. An asynchronous `createTaskForCall` writes `activationId` inside its starting literal rather than after it; the map is the same.
- Python dictionaries keep insertion order and Dafny maps do not. The order of the query string is not modelled, nor the order of a JSON object's fields: `RenameMsg` keeps the field set, while Python puts `message` last (api.py:185).
- Value: arguments are modelled as `None`, a boolean, an integer or a string. Other argument types, such as `0.0`, `[]` or `{}` (each falsy under `if arg:`), are not modelled.
- Each public method is modelled as two members: a builder (`GetNumber`, …) and the shared `Send`. The model has no single member that does both.
- Each builder keeps a ghost list `rest` of the insertions still to make. It exists only for the proof and is never sent.
- Keys are declared as the `Param` datatype, each with its wire name (`Name`). Python uses plain strings; `Requests.NameInjective` shows that distinct parameters have distinct names, so a `Param`-keyed map stands for the string-keyed dictionary.
- The blocking class defines `getAdditionalService` twice (lines 322 and 336). Python keeps the second definition, which is the one modelled. The first tests `service` before `id` and builds the same map.
- JSON numbers are kept as their literal text; floating-point values are not modelled.
- `response` is only ever reached from the request methods with the action names above. Calling it with any other string gives the body back, as `DispatchTable` states.
