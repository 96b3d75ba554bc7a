/** The routing rules of `DebuggerErrbit\Debugger`, as pure functions: for each
    entry point, the effects it performs given the process state and its
    arguments; and the properties those rules promise. */
module Routing {
  import opened Php
  import opened Effects

  // The Nette debugger's priorities (Debugger::DEBUG ... Debugger::CRITICAL).
  const DEBUG: Priority := "debug"
  const INFO: Priority := "info"
  const WARNING: Priority := "warning"
  const ERROR: Priority := "error"
  const CRITICAL: Priority := "critical"

  /** The initial value of the public allow-list `Debugger::$severity`. */
  const DefaultSeverity: seq<int> :=
    [E_ERROR, E_PARSE, E_CORE_ERROR, E_COMPILE_ERROR, E_USER_ERROR, E_RECOVERABLE_ERROR, E_DEPRECATED, E_USER_DEPRECATED]

  /** The error levels after which PHP cannot go on, reported from the shutdown handler. */
  const Unrecoverable: seq<int> := [E_ERROR, E_CORE_ERROR, E_COMPILE_ERROR, E_PARSE]

  /** Exceptions that stand for an HTTP 404 and are never sent to Errbit. */
  const IgnoredExceptions: seq<ClassName> :=
    ["Nette\\Application\\InvalidPresenterException", "Nette\\Application\\BadRequestException"]

  /** The message the audit log writes when no table was set. */
  const NoLogTableMessage: string := "No log table given"

  /** The error handler's allow-list test: the list holds `E_ALL` or the severity itself. */
  predicate Reportable(allowList: seq<int>, severity: int) {
    E_ALL in allowList || severity in allowList
  }

  /** The exception handler's ignore test: the exception is an instance of some ignored class. */
  predicate Ignored(h: Hierarchy, exception: Throwable) {
    exists i :: 0 <= i < |IgnoredExceptions| && InstanceOf(h, exception.cls, IgnoredExceptions[i])
  }

  /** The `switch ($severity)` of the error handler: which Errbit error class a PHP error becomes. */
  function Classify(severity: int, message: string, file: string, line: int, backtrace: Backtrace): (r: Report)
    ensures r.ErrorReport?
    ensures r.message == message && r.file == file && r.line == line && r.backtrace == backtrace
    ensures r.kind == Notice <==> severity == E_NOTICE || severity == E_USER_NOTICE
    ensures r.kind == Warning <==> severity == E_WARNING || severity == E_USER_WARNING
    ensures r.kind == Error <==> severity !in {E_NOTICE, E_USER_NOTICE, E_WARNING, E_USER_WARNING}
  {
    if severity == E_NOTICE || severity == E_USER_NOTICE then
      ErrorReport(Notice, message, file, line, backtrace)
    else if severity == E_WARNING || severity == E_USER_WARNING then
      ErrorReport(Warning, message, file, line, backtrace)
    else
      ErrorReport(Error, message, file, line, backtrace)
  }

  /** `new \Exception($e)`: the exception the exception handler sends instead of `$e` itself. */
  function Wrap(e: Throwable): Throwable {
    Throwable("Exception", Described(e))
  }

  /** The exception `log` sends: the message itself when it is an exception,
      otherwise `new \Exception($message)`. */
  function AsException(m: Loggable): (e: Throwable)
    ensures m.LogThrowable? ==> e == m.exception
    ensures m.LogText? ==> e.cls == "Exception" && e.message == Text(m.text)
  {
    match m
    case LogThrowable(e) => e
    case LogText(s) => Throwable("Exception", Text(s))
  }

  /** The row `dbLog` inserts. */
  function BuildRow(flag: string, methodName: string, description: string, data: Value, ip: Option<string>, now: Timestamp): Row {
    Row(if Truthy(data) then Some(Serialized(data)) else None, description, methodName, flag, ip, now)
  }

  // ---------------------------------------------------------------------------
  // The effects of each entry point

  function ErrorHandlerEffects(
    sendErrors: bool, allowList: seq<int>,
    severity: int, message: string, file: string, line: int, context: Context, backtrace: Backtrace): seq<Effect>
  {
    (if Reportable(allowList, severity) && sendErrors then [Notify(Classify(severity, message, file, line, backtrace))] else [])
    + [PlatformError(severity, message, file, line, context)]
  }

  function ExceptionHandlerEffects(sendErrors: bool, h: Hierarchy, exception: Throwable, shutdown: bool): seq<Effect> {
    (if sendErrors && !Ignored(h, exception) then [Notify(ExceptionReport(Wrap(exception)))] else [])
    + [PlatformException(exception, shutdown)]
  }

  function ShutdownHandlerEffects(sendErrors: bool, lastError: Option<LastError>): seq<Effect> {
    match lastError
    case Some(err) =>
      if sendErrors && err.errorType in Unrecoverable then [Notify(FatalReport(err.message, err.file, err.line))] else []
    case None =>
      // `$error['type']` of null is null, which `in_array` finds in no list of error levels
      []
  }

  function LogEffects(sendErrors: bool, message: Loggable, priority: Priority): seq<Effect> {
    [PlatformLog(message, priority)]
    + (if sendErrors && priority == ERROR then [Notify(ExceptionReport(AsException(message)))] else [])
  }

  /** The effects of `dbLog`. With no table, the warning is written and the call of
      `insert` on null ends the script; `DbLogAborts` says when that happens. */
  function DbLogEffects(
    sendErrors: bool, logTable: Option<Table>, remoteAddress: Option<string>,
    flag: string, methodName: string, description: string, data: Value, serialization: SerializeOutcome,
    now: Timestamp, outcome: InsertOutcome): seq<Effect>
  {
    match logTable
    case None => [PlatformLog(LogText(NoLogTableMessage), ERROR)]
    case Some(table) =>
      if !RowBuilds(data, serialization) then
        // `serialize` threw inside the `try`: no insert, the exception goes to `log`
        LogEffects(sendErrors, LogThrowable(serialization.error), ERROR)
      else
        [Insert(table, BuildRow(flag, methodName, description, data, remoteAddress, now))]
        + (if outcome.InsertFailed? then LogEffects(sendErrors, LogThrowable(outcome.error), ERROR) else [])
  }

  /** Whether building the row succeeds: `serialize` runs only for a truthy payload. */
  predicate RowBuilds(data: Value, serialization: SerializeOutcome) {
    !(Truthy(data) && serialization.SerializeThrows?)
  }

  predicate DbLogAborts(logTable: Option<Table>) {
    logTable.None?
  }

  /** What `$logTable->insert(...)` does: store the row, or throw. */
  datatype InsertOutcome = Inserted | InsertFailed(error: Throwable)

  /** What `serialize($data)` does with the payload: return its serialized form, or throw
      (a closure, or an object whose `__sleep` throws). */
  datatype SerializeOutcome = Serializes | SerializeThrows(error: Throwable)

  function ConsoleLogEffects(consoleMode: bool, msg: string): seq<Effect> {
    if consoleMode then [Echo(msg)] else []
  }

  // ---------------------------------------------------------------------------
  // Properties of the rules

  /** The error handler sends at most one report, and only when errors are sent and the
      severity passes the allow-list; it then always calls the Nette error handler once,
      with its own arguments, and does nothing else. */
  lemma ErrorHandlerRouting(
    sendErrors: bool, allowList: seq<int>,
    severity: int, message: string, file: string, line: int, context: Context, backtrace: Backtrace)
    ensures var e := ErrorHandlerEffects(sendErrors, allowList, severity, message, file, line, context, backtrace);
      && Occurrences(e, TNotify) == (if sendErrors && Reportable(allowList, severity) then 1 else 0)
      && Occurrences(e, TPlatformError) == 1
      && |e| == Occurrences(e, TNotify) + Occurrences(e, TPlatformError)
      && e[|e| - 1] == PlatformError(severity, message, file, line, context)
      && (Occurrences(e, TNotify) == 1 ==> e[0] == Notify(Classify(severity, message, file, line, backtrace)))
  {
  }

  /** With the default allow-list, notices and warnings are never sent to Errbit, so every
      report the error handler sends is an Errbit_Errors_Error. */
  lemma DefaultAllowListReportsOnlyErrors(
    sendErrors: bool, severity: int, message: string, file: string, line: int, context: Context, backtrace: Backtrace)
    ensures var e := ErrorHandlerEffects(sendErrors, DefaultSeverity, severity, message, file, line, context, backtrace);
      && (severity in {E_NOTICE, E_USER_NOTICE, E_WARNING, E_USER_WARNING} ==> Occurrences(e, TNotify) == 0)
      && forall i :: 0 <= i < |e| && e[i].Notify? ==> e[i].report.ErrorReport? && e[i].report.kind == Error
  {
  }

  /** The exception handler sends exactly one report exactly when errors are sent and the
      exception is not an instance of an ignored class; it always hands the exception,
      with the same `shutdown` flag, to the Nette exception handler last. */
  lemma ExceptionHandlerRouting(sendErrors: bool, h: Hierarchy, exception: Throwable, shutdown: bool)
    ensures var e := ExceptionHandlerEffects(sendErrors, h, exception, shutdown);
      && Occurrences(e, TNotify) == (if sendErrors && !Ignored(h, exception) then 1 else 0)
      && Occurrences(e, TPlatformException) == 1
      && |e| == Occurrences(e, TNotify) + Occurrences(e, TPlatformException)
      && e[|e| - 1] == PlatformException(exception, shutdown)
      && (Occurrences(e, TNotify) == 1 ==> e[0] == Notify(ExceptionReport(Wrap(exception))))
  {
  }

  /** An exception of an ignored class (or a subclass of one) is never sent to Errbit, but
      it is still shown by the Nette debugger. */
  lemma IgnoredExceptionsStayLocal(sendErrors: bool, h: Hierarchy, exception: Throwable, shutdown: bool, i: nat)
    requires i < |IgnoredExceptions| && InstanceOf(h, exception.cls, IgnoredExceptions[i])
    ensures Occurrences(ExceptionHandlerEffects(sendErrors, h, exception, shutdown), TNotify) == 0
    ensures ExceptionHandlerEffects(sendErrors, h, exception, shutdown) == [PlatformException(exception, shutdown)]
  {
  }

  /** The shutdown handler sends one Fatal report, carrying the last error's message, file
      and line, exactly when errors are sent and that error is unrecoverable; it does nothing
      else, and never calls into the Nette debugger. */
  lemma ShutdownHandlerRouting(sendErrors: bool, lastError: Option<LastError>)
    ensures var e := ShutdownHandlerEffects(sendErrors, lastError);
      && Occurrences(e, TNotify) == (if sendErrors && lastError.Some? && lastError.value.errorType in Unrecoverable then 1 else 0)
      && |e| == Occurrences(e, TNotify)
      && (lastError.None? ==> e == [])
      && (e != [] ==> e[0] == Notify(FatalReport(lastError.value.message, lastError.value.file, lastError.value.line)))
  {
  }

  /** `log` always writes one entry with the given priority to the Nette log, first; it sends
      a report exactly when errors are sent and the priority is ERROR. */
  lemma LogRouting(sendErrors: bool, message: Loggable, priority: Priority)
    ensures var e := LogEffects(sendErrors, message, priority);
      && e[0] == PlatformLog(message, priority)
      && Occurrences(e, TPlatformLog) == 1
      && Occurrences(e, TNotify) == (if sendErrors && priority == ERROR then 1 else 0)
      && |e| == Occurrences(e, TPlatformLog) + Occurrences(e, TNotify)
      && (Occurrences(e, TNotify) == 1 ==> e[1] == Notify(ExceptionReport(AsException(message))))
  {
  }

  /** With a table set, `dbLog` makes one insert exactly when the row can be built, first,
      of a row whose flag, method and description are the arguments, whose ip is the
      request's remote address, whose time is the call's, and whose data is the serialized
      payload when the payload is truthy and null otherwise. A successful insert is all it does. */
  lemma DbLogInsertsOneRow(
    sendErrors: bool, table: Table, remoteAddress: Option<string>,
    flag: string, methodName: string, description: string, data: Value, serialization: SerializeOutcome, now: Timestamp, outcome: InsertOutcome)
    ensures var e := DbLogEffects(sendErrors, Some(table), remoteAddress, flag, methodName, description, data, serialization, now, outcome);
      && Occurrences(e, TInsert) == (if RowBuilds(data, serialization) then 1 else 0)
      && (RowBuilds(data, serialization) ==>
            && e[0].Insert? && e[0].table == table
            && e[0].row.flag == flag && e[0].row.methodName == methodName && e[0].row.description == description
            && e[0].row.ip == remoteAddress && e[0].row.created == now
            && e[0].row.data == (if Truthy(data) then Some(Serialized(data)) else None)
            && (outcome.Inserted? ==> |e| == 1))
  {
  }

  /** When `serialize` throws, nothing is inserted: the exception goes to `log` once, at
      priority ERROR, giving one Nette log entry and, when errors are sent, one report. */
  lemma DbLogSerializeFailureLoggedOnce(
    sendErrors: bool, table: Table, remoteAddress: Option<string>,
    flag: string, methodName: string, description: string, data: Value, now: Timestamp, outcome: InsertOutcome, error: Throwable)
    ensures var e := DbLogEffects(sendErrors, Some(table), remoteAddress, flag, methodName, description, data, SerializeThrows(error), now, outcome);
      && (Truthy(data) ==>
            && e == LogEffects(sendErrors, LogThrowable(error), ERROR)
            && Occurrences(e, TInsert) == 0
            && Occurrences(e, TPlatformLog) == 1
            && e[0] == PlatformLog(LogThrowable(error), ERROR)
            && Occurrences(e, TNotify) == (if sendErrors then 1 else 0)
            && (sendErrors ==> e[1] == Notify(ExceptionReport(error))))
      && (!Truthy(data) ==> Occurrences(e, TInsert) == 1)
  {
  }

  /** A failed insert is handed to `log` once, at priority ERROR: one Nette log entry of the
      exception and, when errors are sent, one report of it. `log` never writes to the
      table again, so the failure cannot recurse. */
  lemma DbLogFailureLoggedOnce(
    sendErrors: bool, table: Table, remoteAddress: Option<string>,
    flag: string, methodName: string, description: string, data: Value, serialization: SerializeOutcome, now: Timestamp, error: Throwable)
    ensures var e := DbLogEffects(sendErrors, Some(table), remoteAddress, flag, methodName, description, data, serialization, now, InsertFailed(error));
      RowBuilds(data, serialization) ==>
        && e[1..] == LogEffects(sendErrors, LogThrowable(error), ERROR)
        && Occurrences(e, TInsert) == 1
        && Occurrences(e, TPlatformLog) == 1
        && e[1] == PlatformLog(LogThrowable(error), ERROR)
        && Occurrences(e, TNotify) == (if sendErrors then 1 else 0)
        && (sendErrors ==> e[2] == Notify(ExceptionReport(error)))
  {
  }

  /** Without a table, `dbLog` writes "No log table given" to the Nette log at priority
      ERROR (never to Errbit), inserts nothing, and then aborts. */
  lemma DbLogWithoutTableAborts(
    sendErrors: bool, remoteAddress: Option<string>,
    flag: string, methodName: string, description: string, data: Value, serialization: SerializeOutcome, now: Timestamp, outcome: InsertOutcome)
    ensures var e := DbLogEffects(sendErrors, None, remoteAddress, flag, methodName, description, data, serialization, now, outcome);
      && e == [PlatformLog(LogText(NoLogTableMessage), ERROR)]
      && Occurrences(e, TNotify) == 0 && Occurrences(e, TInsert) == 0
  {
  }

  /** `consoleLog` echoes the message, even an empty one, exactly when in console mode,
      and does nothing else. */
  lemma ConsoleLogRouting(consoleMode: bool, msg: string)
    ensures var e := ConsoleLogEffects(consoleMode, msg);
      && Occurrences(e, TEcho) == (if consoleMode then 1 else 0)
      && |e| == Occurrences(e, TEcho)
      && (consoleMode ==> e == [Echo(msg)])
  {
  }

  /** With sending switched off, no entry point ever reports to Errbit. */
  lemma SilentWhenSendingOff(
    allowList: seq<int>, h: Hierarchy, consoleMode: bool, logTable: Option<Table>, remoteAddress: Option<string>,
    severity: int, message: string, file: string, line: int, context: Context, backtrace: Backtrace,
    exception: Throwable, shutdown: bool, lastError: Option<LastError>, entry: Loggable, priority: Priority,
    flag: string, methodName: string, description: string, data: Value, serialization: SerializeOutcome, now: Timestamp, outcome: InsertOutcome)
    ensures Occurrences(ErrorHandlerEffects(false, allowList, severity, message, file, line, context, backtrace), TNotify) == 0
    ensures Occurrences(ExceptionHandlerEffects(false, h, exception, shutdown), TNotify) == 0
    ensures Occurrences(ShutdownHandlerEffects(false, lastError), TNotify) == 0
    ensures Occurrences(LogEffects(false, entry, priority), TNotify) == 0
    ensures Occurrences(DbLogEffects(false, logTable, remoteAddress, flag, methodName, description, data, serialization, now, outcome), TNotify) == 0
    ensures Occurrences(ConsoleLogEffects(consoleMode, message), TNotify) == 0
  {
  }
}
