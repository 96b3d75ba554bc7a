/** `DebuggerErrbit\Debugger`: the process-wide state the PHP class keeps in static
    fields, and its entry points. Every entry point only appends to `trace`, the
    record of what it did, and reads the rest of the state. */
module DebuggerErrbit {
  import opened Php
  import opened Effects
  import opened Routing

  /** How `dbLog` ended: normally, or with the fatal error of calling `insert` on null. */
  datatype DbLogStatus = Completed | Aborted

  class Debugger {
    /** Send errors to Errbit. */
    var sendErrors: bool
    /** Running from the command line. */
    var consoleMode: bool
    /** The audit log table, once `SetLogTable` was called. */
    var logTable: Option<Table>
    /** The remote address of the current request. */
    var remoteAddress: Option<string>
    /** The public allow-list of severities for the error handler. */
    var severity: seq<int>
    /** Everything the entry points did, in order. */
    ghost var trace: seq<Effect>

    /** The state when the class is loaded: every static field is null, which PHP reads as
        false, and the allow-list has its declared initial value. */
    constructor ()
      ensures !sendErrors && !consoleMode && logTable == None && remoteAddress == None
      ensures severity == DefaultSeverity && trace == []
    {
      sendErrors := false;
      consoleMode := false;
      logTable := None;
      remoteAddress := None;
      severity := DefaultSeverity;
      trace := [];
    }

    /** `init`: the container's console-mode parameter and the request's remote address are
        passed in. Configuring Errbit and registering the handlers are not modelled. */
    method Init(sendErrors: bool, consoleMode: bool, remoteAddress: Option<string>)
      modifies this`sendErrors, this`consoleMode, this`remoteAddress
      ensures this.sendErrors == sendErrors && this.consoleMode == consoleMode && this.remoteAddress == remoteAddress
    {
      this.sendErrors := sendErrors;
      this.consoleMode := consoleMode;
      this.remoteAddress := remoteAddress;
    }

    method SetLogTable(table: Table)
      modifies this`logTable
      ensures logTable == Some(table)
    {
      logTable := Some(table);
    }

    /** `log`: write to the Nette log; report to Errbit when sending and the priority is ERROR. */
    method Log(message: Loggable, priority: Priority)
      modifies this`trace
      ensures trace == old(trace) + LogEffects(sendErrors, message, priority)
    {
      trace := trace + [PlatformLog(message, priority)];
      var exception := AsException(message);
      if sendErrors && priority == ERROR {
        trace := trace + [Notify(ExceptionReport(exception))];
      }
    }

    /** `dbLog`: insert an audit row; an exception from building the row or from the insert
        is passed to `log` at priority ERROR. `serialization` is what `serialize` does with the
        payload, `now` the time of the call and `outcome` what the table does with the row. */
    method DbLog(
      flag: string, methodName: string, description: string, data: Value,
      serialization: SerializeOutcome, now: Timestamp, outcome: InsertOutcome)
      returns (status: DbLogStatus)
      modifies this`trace
      ensures status == (if DbLogAborts(logTable) then Aborted else Completed)
      ensures trace == old(trace) + DbLogEffects(sendErrors, logTable, remoteAddress, flag, methodName, description, data, serialization, now, outcome)
    {
      if logTable == None {
        trace := trace + [PlatformLog(LogText(NoLogTableMessage), ERROR)];
      }
      match logTable
      case None =>
        // no return after the warning: `insert` is called on null, a fatal error that the
        // `catch (\Exception $e)` does not see
        status := Aborted;
      case Some(table) =>
        status := Completed;
        if Truthy(data) && serialization.SerializeThrows? {
          // `serialize` throws while the row is built, before `insert` is reached
          Log(LogThrowable(serialization.error), ERROR);
        } else {
          trace := trace + [Insert(table, BuildRow(flag, methodName, description, data, remoteAddress, now))];
          if outcome.InsertFailed? {
            Log(LogThrowable(outcome.error), ERROR);
          }
        }
    }

    /** `consoleLog`: echo the message in console mode. */
    method ConsoleLog(msg: string)
      modifies this`trace
      ensures trace == old(trace) + ConsoleLogEffects(consoleMode, msg)
    {
      if consoleMode {
        trace := trace + [Echo(msg)];
      }
    }

    /** `_shutdownHandler`: `lastError` is what `error_get_last()` returns. */
    method ShutdownHandler(lastError: Option<LastError>)
      modifies this`trace
      ensures trace == old(trace) + ShutdownHandlerEffects(sendErrors, lastError)
    {
      if sendErrors && lastError.Some? && lastError.value.errorType in Unrecoverable {
        var err := lastError.value;
        trace := trace + [Notify(FatalReport(err.message, err.file, err.line))];
      }
    }

    /** `_exceptionHandler`: `h` is the program's class hierarchy, which decides `instanceof`. */
    method ExceptionHandler(exception: Throwable, shutdown: bool, h: Hierarchy)
      modifies this`trace
      ensures trace == old(trace) + ExceptionHandlerEffects(sendErrors, h, exception, shutdown)
    {
      if sendErrors {
        var ignore := false;
        var i := 0;
        while i < |IgnoredExceptions|
          invariant 0 <= i <= |IgnoredExceptions|
          invariant ignore <==> exists j :: 0 <= j < i && InstanceOf(h, exception.cls, IgnoredExceptions[j])
        {
          if InstanceOf(h, exception.cls, IgnoredExceptions[i]) {
            ignore := true;
          }
          i := i + 1;
        }
        if !ignore {
          trace := trace + [Notify(ExceptionReport(Wrap(exception)))];
        }
      }
      trace := trace + [PlatformException(exception, shutdown)];
    }

    /** `_errorHandler`: `backtrace` is what `debug_backtrace()` returns at that point. */
    method ErrorHandler(severity: int, message: string, file: string, line: int, context: Context, backtrace: Backtrace)
      modifies this`trace
      ensures trace == old(trace) + ErrorHandlerEffects(sendErrors, this.severity, severity, message, file, line, context, backtrace)
    {
      if E_ALL in this.severity || severity in this.severity {
        var report := Classify(severity, message, file, line, backtrace);
        if sendErrors {
          trace := trace + [Notify(report)];
        }
      }
      trace := trace + [PlatformError(severity, message, file, line, context)];
    }
  }
}
