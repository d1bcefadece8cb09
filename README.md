# Mellat and Sadad payment adapters, modelled in Dafny

This project models two bank adapters of a PHP payment-gateway library. Each adapter walks one
payment through *new → ref-id set → succeeded | failed* and appends `(code, message)` entries
to the transaction's log along the way.

- **Mellat** (`src/Mellat/Mellat.php`) is a two-phase bank.
  1. The pay request returns a comma-separated reply. A first field of `0` carries the reference id.
  2. The customer's browser returns with a `ResCode`. A non-`0` code fails the payment on the spot.
  3. A verify request must return `0`.
  4. A settle request then marks the payment succeeded on `0`, or on `45` ("already settled").
- **Sadad** (`src/Sadad/Sadad.php`) is a single-phase bank.
  1. The pay request must return both a request key and an HTML form. The form is cleared before the bank is asked.
  2. One status request decides the outcome. It needs status `0` and the description `commit`, in any letter case.
  3. Message texts come from a result table, with a fixed "unknown error" record as fallback.

Layout:

- `php.dfy` (module `Php`) holds the PHP built-ins that the adapters' behaviour depends on:
  - `explode(',')` with its inverse `implode`;
  - `strtolower`;
  - `intval` and `strval` of integers;
  - string truthiness.
- `port.dfy` (module `Port`) holds what both adapters share:
  - the bank replies (`Reply = Fault | Ok`);
  - the exceptions and the step `Result` (`Returned | Threw`);
  - `Status`;
  - the stored `Transaction`;
  - the `TransactionRecord` class, which models the operations of the base class `PortAbstract`;
  - the callback-base rule of `getCallback`.
- `mellat.dfy` and `sadad.dfy` each give one adapter:
  - a value-level `State`;
  - one pure step function per protected operation (`PayStep`, `CallbackStep`, `VerifyStep`, `SettleStep`, `VerifyRun`), whose contracts state what the step does;
  - a class (`MellatPort`, `SadadPort`) with the PHP object's fields. Each method's body follows the PHP method, and its postcondition equates the new state and the outcome with the step function applied to the old state.

Bank replies and browser callback parameters are method arguments. Three things the code reads from outside are parameters too:
- the configured callback URL;
- the id the new record receives;
- `makeCallback`, which builds the return URL.

The bank-code tables are constants of each port object:
- `MellatException::$errors` is a `map`;
- `SadadResult`'s table and named codes are a `Catalog`.

`PortAbstract` is not part of this model. Its operations are assumed to be plain field updates of the record:
- `newTransaction` makes a fresh record with the given id, status New and an empty log;
- `transactionFailed`, `transactionSucceed` and `transactionSetRefId` set the status;
- `newLog` appends one entry;
- `verify($transaction)` adopts the stored id, price, reference id, status and log.

Where the design description and the code disagree, the model follows the code:
- The design says every failure marks the record failed and logs the cause. Sadad's invalid pay reply logs but leaves the record New (Sadad.php:122-125). Sadad's empty status reply neither logs nor changes the status (Sadad.php:159-160).
- The design says a transport fault leaves the record in its prior state. Both adapters mark the record failed on a `SoapFault`.
- The design says card metadata is written once. Mellat's callback step overwrites `refId`, `trackingCode` and `cardNumber` from the browser's parameters on every `verify`, even when the callback then fails.
- The design speaks of a controller that refuses `verify` on a record in the wrong state. Neither adapter checks the state. That controller is not part of this model.
- `getCallback` tests the stored URL with PHP truthiness, not emptiness, so a URL of `"0"` counts as unset. A falsy configured URL is read again by the next call (`Port.FalsyBaseIsReread`).

## Model

| member | source | states |
|---|---|---|
| `Php.Explode` | src/Mellat/Mellat.php:125 | there is at least one piece (a piece may itself be empty), no piece contains a comma, and the pieces joined with commas give back the reply |
| `Php.ExplodeImplode` | src/Mellat/Mellat.php:125 | splitting comma-joined comma-free pieces gives back exactly those pieces |
| `Php.StrToLower` | src/Sadad/Sadad.php:163 | same length; every character is its ASCII small-letter form |
| `Php.StrToLowerMatches` | src/Sadad/Sadad.php:163-169 | comparing the lower-cased text with a small-letter word is a case-insensitive comparison, both directions |
| `Php.IntVal` | src/Sadad/Sadad.php:32 | an integer amount is kept unchanged; every result is within the 64-bit PHP range |
| `Php.IntValDecimal` | src/Sadad/Sadad.php:32 | the model's `intval` reads back the integer `strval` wrote, even with non-digit text after it (PHP itself would go on to read a `.` fraction or an `e` exponent; see "## Left out") |
| `Php.IntValNoDigits` | src/Sadad/Sadad.php:32 | a string without digits converts to 0 |
| `Port.TransactionRecord.Start` | src/Mellat/Mellat.php:100 | new transaction: the given id, status New, empty log |
| `Port.TransactionRecord.MarkFailed` | src/Mellat/Mellat.php:120 | status becomes Failed, nothing else changes |
| `Port.TransactionRecord.MarkSucceeded` | src/Mellat/Mellat.php:227 | status becomes Succeeded, nothing else changes |
| `Port.TransactionRecord.MarkRefIdSet` | src/Mellat/Mellat.php:133 | status becomes RefIdSet, nothing else changes |
| `Port.TransactionRecord.Append` | src/Mellat/Mellat.php:121 | the log gains exactly one entry at its end; earlier entries are untouched |
| `Port.TransactionRecord.Adopt` | src/Mellat/Mellat.php:58 | the record continues with the stored transaction's id, status and log |
| `Port.TruthyBaseIsKept` | src/Mellat/Mellat.php:83-84 | once a truthy base is stored, any number of later `getCallback` calls keep it |
| `Port.BaseSettlesAtFirstCall` | src/Mellat/Mellat.php:81-87 | the base chosen by the first call (the set URL if truthy, else the configured one) is the one every later call uses |
| `Port.FalsyBaseIsReread` | src/Sadad/Sadad.php:85-86 | when neither the stored nor the configured URL is truthy, the next call takes the configuration afresh |
| `Mellat.PayStep` | src/Mellat/Mellat.php:96-134 | returns iff the first field is `0`, then refId is the second field, status RefIdSet, log empty; a fault or other code gives Failed, exactly one log entry with that code, the matching exception, refId unchanged; the callback base is resolved and the new id taken |
| `Mellat.CallbackStep` | src/Mellat/Mellat.php:143-157 | refId, trackingCode and cardNumber come from the callback whatever its code; returns iff `ResCode` is `0` with status and log unchanged; otherwise Failed, one log entry with the code, and a MellatException with that code |
| `Mellat.VerifyStep` | src/Mellat/Mellat.php:167-195 | returns iff the bank returns `0`, and then nothing changes; on a fault or other code only status (Failed) and the log change: one appended entry, `(SoapFault, fault message)` for a fault or `(code, $errors[code])` for a code, and that fault or code is thrown |
| `Mellat.SettleStep` | src/Mellat/Mellat.php:205-235 | returns iff the code is `0` or `45`, then Succeeded with one entry (code, success text); otherwise Failed and one appended entry, `(SoapFault, fault message)` for a fault or `(code, $errors[code])` for a code, and the fault or the code is thrown |
| `Mellat.VerifyRun` | src/Mellat/Mellat.php:56-65 | succeeds iff callback `0`, verify `0` and settle `0`/`45`; ends Succeeded or Failed accordingly; appends exactly one log entry to the stored log; the callback's fields are always stored |
| `Mellat.CallbackFailureSkipsBank` | src/Mellat/Mellat.php:150-156 | after a failing callback the verify and settle replies make no difference (no request is made) and the callback code is thrown |
| `Mellat.VerifyFailureSkipsSettle` | src/Mellat/Mellat.php:188-191 | after a failing verify the settle reply makes no difference |
| `Mellat.OnlySettleSucceeds` | src/Mellat/Mellat.php:150-194 | neither the callback check nor the verify step marks a transaction succeeded |
| `Mellat.MellatPort.Set` | src/Mellat/Mellat.php:26-31 | the amount is stored as given, nothing else changes |
| `Mellat.MellatPort.Ready` | src/Mellat/Mellat.php:36-41 | the state after `ready` is that of `PayStep` |
| `Mellat.MellatPort.SetCallback` | src/Mellat/Mellat.php:71-75 | only the stored callback URL changes |
| `Mellat.MellatPort.GetCallback` | src/Mellat/Mellat.php:81-87 | stores the callback base (set URL if truthy, else configured) and returns `makeCallback` of it and the transaction id |
| `Mellat.MellatPort.SendPayRequest` | src/Mellat/Mellat.php:96-134 | new state and outcome are those of `PayStep` |
| `Mellat.MellatPort.UserPayment` | src/Mellat/Mellat.php:143-157 | new state and outcome are those of `CallbackStep` |
| `Mellat.MellatPort.VerifyPayment` | src/Mellat/Mellat.php:167-195 | new state and outcome are those of `VerifyStep` |
| `Mellat.MellatPort.SettleRequest` | src/Mellat/Mellat.php:205-235 | new state and outcome are those of `SettleStep` |
| `Mellat.MellatPort.LoadTransaction` | src/Mellat/Mellat.php:58 | the port continues with the stored transaction's id, price, refId, status and log |
| `Mellat.MellatPort.Verify` | src/Mellat/Mellat.php:56-65 | new state and outcome are those of `VerifyRun`: the three steps in order, each only if the one before returned |
| `Sadad.GetMessage` | src/Sadad/Sadad.php:188-204 | the table entry when there is one, otherwise the unknown record (`UNKNOWN_CODE`, `UNKNOWN_MESSAGE`, `خطای ناشناخته`, `Unknown Error`, not retryable); total |
| `Sadad.PayStep` | src/Sadad/Sadad.php:98-132 | returns iff both `RequestKey` and `PaymentUtilityResult` are present, then form and refId are taken from them, status RefIdSet, log empty; on any failure the form is empty, refId unchanged and exactly one entry logged; a fault marks Failed and rethrows; a missing entry logs and throws the invalid-response code but leaves status New |
| `Sadad.VerifyStep` | src/Sadad/Sadad.php:139-176 | returns iff code `0` and lower-cased description `commit`; a fault marks Failed with one `SoapFault` entry; no data throws with state unchanged; once a code arrives exactly one entry (code, its `fa` message) is logged, success stores trace number and card number and marks Succeeded, failure marks Failed and leaves both untouched |
| `Sadad.CommitIgnoresCase` | src/Sadad/Sadad.php:162-169 | a status reply succeeds exactly when its code is `0` and its description is `commit` in any mix of letter cases |
| `Sadad.VerifyRun` | src/Sadad/Sadad.php:60-67 | one status step on the stored transaction and no settle: success iff committed and then status Succeeded; at most one appended log entry; no data leaves the loaded state unchanged |
| `Sadad.SadadPort.Set` | src/Sadad/Sadad.php:30-35 | the amount is stored as `intval` of what is given, nothing else changes |
| `Sadad.SadadPort.Ready` | src/Sadad/Sadad.php:40-45 | the state after `ready` is that of `PayStep` |
| `Sadad.SadadPort.SetCallback` | src/Sadad/Sadad.php:73-77 | only the stored callback URL changes |
| `Sadad.SadadPort.GetCallback` | src/Sadad/Sadad.php:83-89 | stores the callback base and returns `makeCallback` of it and the transaction id |
| `Sadad.SadadPort.SendPayRequest` | src/Sadad/Sadad.php:98-132 | new state and outcome are those of `PayStep`; the callback base is resolved only when the client was created |
| `Sadad.SadadPort.VerifyPayment` | src/Sadad/Sadad.php:139-176 | new state and outcome are those of `VerifyStep` |
| `Sadad.SadadPort.LoadTransaction` | src/Sadad/Sadad.php:62 | the port continues with the stored transaction's id, price, refId, status and log |
| `Sadad.SadadPort.Verify` | src/Sadad/Sadad.php:60-67 | new state and outcome are those of `VerifyRun` |

## Left out

- `redirect` of both adapters: it renders a view, which is user interface.
- The remote calls: SOAP clients, service addresses and the request payloads (credentials, order id, amount, dates, callback URL). The bank's reply is an argument. Sadad's pay reply separates a fault while creating the client from a fault during the call, because only the second comes after `getCallback()` has run.
- Configuration and database access (`Gateway::mellat()`, `Gateway::sadad()`, `json_decode(connection_info)`): the configured callback URL is an argument; credentials are not modelled.
- `Request::input`: the browser's parameters are a `Callback` value, with a missing parameter read as `""`.
- Clock-dependent values: the pay request's local date and time, and the generation of transaction ids (the id is an argument).
- `makeCallback` and the rest of `PortAbstract`: the URL builder is a function argument, and the record operations are the simple updates of `TransactionRecord`.
- The contents of `MellatException::$errors` and `SadadResult`: they are parameters. A code missing from `$errors` gives `""` in place of PHP's `null`, with no undefined-index notice. A found `SadadResult` entry is always taken, even if PHP would treat it as an empty array.
- PHP loose comparison: codes are strings compared exactly with `"0"`, `"45"` and `"commit"`. PHP would also accept numeric spellings such as `"00"`, so the model accepts fewer spellings than the code does.
- Mellat's `$response[1]` on a one-field reply: it is `null` in PHP (with a notice) and `""` in the model.
- Exceptions are the `Threw` outcome of a step. The code of Sadad's no-data exception is PHP's default `0`, written `"0"`.
- `Php.IntVal`: it does not model exponent notation (`"12e3"` is 12000 in PHP, 12 here), float arguments, or fraction strings: the model truncates at the `.`, while PHP parses a string such as `"12.99999999999999999"` as a double and may round it up (to 13). Callers pass integer amounts. Leading white space, a sign, digits, trailing text and saturation at the 64-bit bounds are modelled.
- `Php.StrToLower`: it lowers ASCII letters only, as PHP 8.2 and later do (and earlier versions in the default "C" locale). Locale-dependent lowering before PHP 8.2 is not modelled.
- Concurrency and persistence atomicity: each transaction is a single object, and steps run one after another.
