# DebuggerErrbit error routing, in Dafny

`DebuggerErrbit\Debugger` glues the Nette debugger to the Errbit error tracker. It
installs itself as the PHP error, exception and shutdown handler; for each captured
signal it decides which Errbit error record to build, whether to send it to Errbit, and
whether the Nette debugger still gets to handle it. It also offers `log` (Nette log plus
Errbit for ERROR priority), `dbLog` (a row in an audit log table) and `consoleLog` (echo
in console mode).

This project models those routing rules.

- `php.dfy` (module `Php`): the PHP error-level constants, nullable values, truthiness,
  and `instanceof` over a given class hierarchy.
- `effects.dfy` (module `Effects`): the records sent to Errbit (`Report`), audit rows,
  and the `Effect`s an entry point can perform: `Notify`, `PlatformLog`, `PlatformError`,
  `PlatformException`, `Insert` and `Echo`. `Occurrences` counts the effects of one kind
  in a trace.
- `routing.dfy` (module `Routing`): each entry point's behaviour as a pure function from
  the process state and the arguments to the effects it performs, in order. The lemmas
  here state what the rules promise.
- `debugger.dfy` (module `DebuggerErrbit`): the class `Debugger`. Its fields are the PHP
  class's static fields, plus the ghost field `trace`, which records every effect performed. Each entry
  point is a method that may change only `trace`. Its postcondition says that it appends
  exactly the effects `Routing` gives for it. The exception handler keeps the source's
  loop over the ignore list, and the loop invariant ties the loop's flag to `Ignored`.

Values the PHP code takes from its environment are parameters here:
- `debug_backtrace()` for the error handler;
- `error_get_last()` for the shutdown handler;
- for `dbLog`: `new \DateTime('now')`, whether `serialize($data)` returns or throws, and the outcome of `$logTable->insert(...)`;
- the class hierarchy that decides `instanceof`, as a set of (subclass, superclass) pairs;
- the container's `consoleMode` parameter and the request's remote address for `init`.

Behaviour of the code worth knowing:
- The default allow-list `$severity` (DebuggerErrbit.php:30-32) does not include
  E_NOTICE, E_USER_NOTICE, E_WARNING or E_USER_WARNING. With it, the error handler reports
  only Errbit_Errors_Error records (`DefaultAllowListReportsOnlyErrors`).
- Without a log table, `dbLog` writes "No log table given" to the Nette log at priority
  ERROR. That write goes only to the Nette log, not through `log`, so Errbit never sees it.
  `dbLog` does not return afterwards: it calls `insert` on null. That call is a fatal
  error, not an `\Exception`, so the `catch` does not handle it. The model ends the call
  with status `Aborted` after the log entry.
- The `try` covers building the row as well as the insert. When `serialize($data)` throws, nothing is inserted. That exception, like a failed insert's, is passed to `log($e, ERROR)`. That writes one Nette log entry and,
  when sending is on, reports `$e` itself to Errbit.
- A falsy payload (`0`, `"0"`, `false`, `""`, an empty array) is stored as null, the same
  as a missing one, because the code tests `$data ?`.

## Model

| member | source | states |
|---|---|---|
| `Routing.Classify` | DebuggerErrbit.php:176-191 | E_NOTICE and E_USER_NOTICE become a Notice record. E_WARNING and E_USER_WARNING become a Warning record. Every other level becomes an Error record: E_ERROR, E_USER_ERROR, E_DEPRECATED and unknown values alike. Message, file, line and backtrace are kept. |
| `Routing.AsException` | DebuggerErrbit.php:87-89 | `log` reports an exception message unchanged. A text message is reported as `new \Exception` with that text. |
| `Routing.ErrorHandlerRouting` | DebuggerErrbit.php:173-200 | The error handler sends at most one report. It sends exactly one, the classified record, when sending is on and the allow-list holds E_ALL or the severity. It always ends with exactly one Nette error-handler call with unchanged arguments. It does nothing else. |
| `Routing.DefaultAllowListReportsOnlyErrors` | DebuggerErrbit.php:30-32 | With the default allow-list, notices and warnings (user or not) are never reported. Every report the error handler sends is an Error record. |
| `Routing.ExceptionHandlerRouting` | DebuggerErrbit.php:148-163 | The exception handler reports exactly once (`new \Exception($exception)`) iff sending is on and the exception is an instance of no ignored class. It always ends with one Nette exception-handler call that gets the same exception and the same `shutdown` flag. |
| `Routing.IgnoredExceptionsStayLocal` | DebuggerErrbit.php:40-43 | An instance of InvalidPresenterException or BadRequestException, or of a subclass, is never reported. Its only effect is the Nette exception-handler call. |
| `Routing.ShutdownHandlerRouting` | DebuggerErrbit.php:135-141 | The shutdown handler reports one Fatal record iff sending is on and the last error's type is E_ERROR, E_CORE_ERROR, E_COMPILE_ERROR or E_PARSE. The record carries that error's message, file and line. With no last error it does nothing, and it never calls the Nette debugger. |
| `Routing.LogRouting` | DebuggerErrbit.php:83-94 | `log` first writes one Nette log entry with the given message and priority. It reports once iff sending is on and the priority is ERROR. It does nothing else: in particular, it never writes to the table. |
| `Routing.DbLogInsertsOneRow` | DebuggerErrbit.php:107-115 | With a table set, `dbLog` inserts one row iff the row can be built (`serialize` does not throw, or is not called for a falsy payload), and nothing otherwise. The row's flag, method and description are the arguments. Its ip is the remote address and its created time is the call's. Its data is `serialize($data)` when the payload is truthy, else null. After a successful insert there is no other effect. |
| `Routing.DbLogSerializeFailureLoggedOnce` | DebuggerErrbit.php:107-118 | When `serialize` throws on a truthy payload, nothing is inserted. The effects are exactly those of `log($e, ERROR)`: one Nette log entry of the exception, plus one report of it when sending is on. A falsy payload is never serialized, so the row is inserted. |
| `Routing.DbLogFailureLoggedOnce` | DebuggerErrbit.php:116-118 | When the row was built and the insert fails, the remaining effects are exactly those of `log($e, ERROR)`. That is one Nette log entry of the exception, plus one report of it when sending is on. There is one insert in all, so the failure does not recurse. |
| `Routing.DbLogWithoutTableAborts` | DebuggerErrbit.php:102-108 | Without a table, `dbLog` writes "No log table given" at priority ERROR to the Nette log only. It inserts and reports nothing, then aborts. |
| `Routing.ConsoleLogRouting` | DebuggerErrbit.php:126-130 | `consoleLog` echoes the message iff console mode is on, the empty message included. It does nothing else. |
| `Routing.SilentWhenSendingOff` | DebuggerErrbit.php:91-93 | With sending off, none of the six entry points reports to Errbit. The guards are at lines 91, 138, 149 and 193. |
| `DebuggerErrbit.Debugger.constructor` | DebuggerErrbit.php:10-37 | Before `init`, the static fields are null: sending and console mode are off, and there is no table and no remote address. The allow-list has its declared initial value. |
| `DebuggerErrbit.Debugger.Init` | DebuggerErrbit.php:49-52 | `init` sets the send flag, console mode and remote address. The allow-list, the table and the trace keep their values. |
| `DebuggerErrbit.Debugger.SetLogTable` | DebuggerErrbit.php:74-76 | Sets the audit log table and nothing else. |
| `DebuggerErrbit.Debugger.Log` | DebuggerErrbit.php:83-94 | Appends exactly the effects of `log` to the trace. State other than the trace is unchanged. |
| `DebuggerErrbit.Debugger.DbLog` | DebuggerErrbit.php:102-120 | Appends exactly the effects of `dbLog`. It calls `Log` when `serialize` throws or the insert fails. It returns `Aborted` iff no table was set. |
| `DebuggerErrbit.Debugger.ConsoleLog` | DebuggerErrbit.php:126-130 | Appends an Echo iff console mode is on. |
| `DebuggerErrbit.Debugger.ShutdownHandler` | DebuggerErrbit.php:135-141 | Appends exactly the effects of the shutdown handler. |
| `DebuggerErrbit.Debugger.ExceptionHandler` | DebuggerErrbit.php:148-163 | Appends exactly the effects of the exception handler. Its loop over the ignore list computes `Ignored`. |
| `DebuggerErrbit.Debugger.ErrorHandler` | DebuggerErrbit.php:173-200 | Appends exactly the effects of the error handler, using the current allow-list. |

## Left out

- Configuring and starting the Errbit client (DebuggerErrbit.php:55-61) and its transport. A report appears only as a `Notify` effect; whether delivery succeeds is not modelled.
- Registering the three handlers with PHP (DebuggerErrbit.php:64-66). Reading the container and the HTTP request (DebuggerErrbit.php:51-52) is replaced by parameters of `Init`.
- `createDbTable` (DebuggerErrbit.php:205-215): a chain of schema-builder calls with no logic.
- What the Nette debugger does inside `log`, `_errorHandler` and `_exceptionHandler`. These calls appear only as effects.
- The contents of `debug_backtrace()`, the `serialize` format and the `DateTime` value. These are uninterpreted values. Which payloads `serialize` rejects is not computed: its outcome is a parameter.
- The string form of an exception used by `new \Exception($exception)`. It is kept as `Described(exception)`.
- What PHP does after the fatal error in `dbLog` without a table: the script ends, and the shutdown handler may then run. The model only returns `Aborted`.
- PHP's loose comparison (`==`, `in_array`). The allow-list holds integers and priorities are strings, where loose comparison equals strict comparison. A non-integer entry in `$severity` and a non-string priority (PHP before 8 reads `0 == 'error'` as true) are not modelled. Floating-point payloads are not modelled either, so a `0.0` payload is not covered.
- PHP class names are case-insensitive in `instanceof`. The model compares them as given.
- The default parameter values (`init`'s `$sendErrors = true`, `$priority = INFO`, `$shutdown = FALSE`, `$data = null`). Callers always pass every argument.
- Output buffering and the actual write of `echo`. Only the `Echo` effect is recorded.
- `Errbit::notify` and the Nette debugger's `log`, `_errorHandler` and `_exceptionHandler` are assumed to return normally. No `try` surrounds them (DebuggerErrbit.php:92, 139, 157, 194). If `notify` threw, for instance from a client configured without an API key, the handlers would skip their Nette call at lines 162 and 199. The "always ends with the Nette call" parts of `Routing.ErrorHandlerRouting` and `Routing.ExceptionHandlerRouting` hold only under this assumption.
- The model assumes PHP 5.4 to 5.6, the runtime of the `Nette\Diagnostics` era this code targets, where `E_ALL` is 32767. From PHP 7.4, reading `$error['type']` when `error_get_last()` returned null raises a notice (7.4) or a warning (8.x). That diagnostic would go through the error handler and on to the Nette debugger. So `Routing.ShutdownHandlerRouting`'s "with no last error it does nothing" holds for PHP 5 only.
