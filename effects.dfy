/** What the error-routing core hands to the outside world: reports for the
    Errbit tracker, rows for the audit log table, and calls into the Nette
    debugger. Each entry point is described by the effects it performs, in order. */
module Effects {
  import opened Php

  /** A PHP `\Exception` object: its class and its message. */
  datatype Throwable = Throwable(cls: ClassName, message: Message)

  /** The message an exception was constructed with. `new \Exception($e)` with an
      exception `$e` as message stores the string form of `$e`, kept here as `Described(e)`. */
  datatype Message = Text(text: string) | Described(inner: Throwable)

  /** The three Errbit error classes the error handler can build. */
  datatype ErrorKind = Notice | Warning | Error

  /** One stack frame of `debug_backtrace()`; its contents are not interpreted. */
  type Frame = string
  type Backtrace = seq<Frame>

  /** The variables in scope where a PHP error was raised (the `$context` argument). */
  type Context = map<string, Value>

  /** What is passed to `Errbit::notify`. */
  datatype Report =
    | ErrorReport(kind: ErrorKind, message: string, file: string, line: int, backtrace: Backtrace)  // Errbit_Errors_Notice, _Warning, _Error
    | FatalReport(message: string, file: string, line: int)                                         // Errbit_Errors_Fatal
    | ExceptionReport(exception: Throwable)

  /** The `$message` of `log`: a string or an exception. */
  datatype Loggable = LogText(text: string) | LogThrowable(exception: Throwable)

  /** The `$error` array returned by `error_get_last()`. */
  datatype LastError = LastError(errorType: int, message: string, file: string, line: int)

  /** The result of `serialize($data)`; the format is not modelled. */
  datatype Serialized = Serialized(source: Value)

  /** The value of `new \DateTime('now')`. */
  datatype Timestamp = Timestamp(instant: int)

  /** The database table the audit log is written to. */
  datatype Table = Table(name: string)

  /** One row of the audit log table. */
  datatype Row = Row(
    data: Option<Serialized>,
    description: string,
    methodName: string,
    flag: string,
    ip: Option<string>,
    created: Timestamp)

  /** The Nette debugger's log priorities (`NDebugger::DEBUG` ...). */
  type Priority = string

  datatype Effect =
    | Notify(report: Report)                                                                // Errbit::instance()->notify
    | PlatformLog(entry: Loggable, priority: Priority)                                    // NDebugger::log
    | PlatformError(severity: int, message: string, file: string, line: int, context: Context)  // NDebugger::_errorHandler
    | PlatformException(exception: Throwable, shutdown: bool)                             // NDebugger::_exceptionHandler
    | Insert(table: Table, row: Row)                                                      // $logTable->insert
    | Echo(text: string)                                                                  // echo

  datatype EffectTag = TNotify | TPlatformLog | TPlatformError | TPlatformException | TInsert | TEcho

  function Tag(e: Effect): EffectTag {
    match e
    case Notify(_) => TNotify
    case PlatformLog(_, _) => TPlatformLog
    case PlatformError(_, _, _, _, _) => TPlatformError
    case PlatformException(_, _) => TPlatformException
    case Insert(_, _) => TInsert
    case Echo(_) => TEcho
  }

  /** How many effects of kind `tag` the trace `t` holds. */
  function Occurrences(t: seq<Effect>, tag: EffectTag): (n: nat)
    ensures n <= |t|
    ensures n == 0 <==> forall i :: 0 <= i < |t| ==> Tag(t[i]) != tag
  {
    if t == [] then 0
    else (if Tag(t[0]) == tag then 1 else 0) + Occurrences(t[1..], tag)
  }

  lemma {:induction false} OccurrencesAppend(a: seq<Effect>, b: seq<Effect>, tag: EffectTag)
    ensures Occurrences(a + b, tag) == Occurrences(a, tag) + Occurrences(b, tag)
  {
    if a == [] {
      assert a + b == b;
    } else {
      assert (a + b)[1..] == a[1..] + b;
      OccurrencesAppend(a[1..], b, tag);
    }
  }
}
