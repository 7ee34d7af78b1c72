/** The application handle, type App of package app: a process's environment, cancellable
    context and exit hook, with a lazily created logger and a single-shot error channel.

    Each method is modelled as one atomic step on the handle's fields. The source's mutexes
    guard only the check-and-create of the logger and of the channel and the logger's
    teardown; the send and close of HandleError, the read of the channel in Errors, the call
    of the exit handler and all of LookupEnv run outside them, so atomicity there is an
    assumption of the model, not a guarantee of the source. */
module App {
  import Channels
  import Env

  /** The timestamp prefix of the console template. */
  const TimestampTemplate := "{{.Timestamp.Format \"2006-01-02 15:04:05.000\"}} "

  /** The console template every log line is formatted with. */
  const LogTemplate := "[{{color}}{{ucase .LevelName}}{{reset}}] {{.Message}}{{if .Attrs}} {{json .Attrs}}{{end}}"

  /** The message Exit panics with when a configured exit handler returns. */
  const ExitHandlerReturned := "exit handler returned"

  /** The template the logger is configured with: it always ends with the log template, and
      it carries the timestamp prefix, and nothing else before it, exactly when the
      handle's Stderr is the process's real standard error (tests that write to buffers get
      output without a clock field). */
  function TemplateFor(stderrIsOsStderr: bool): (t: string)
    ensures |t| == |LogTemplate| + (if stderrIsOsStderr then |TimestampTemplate| else 0)
    ensures t[|t| - |LogTemplate|..] == LogTemplate
    ensures stderrIsOsStderr ==> t[..|TimestampTemplate|] == TimestampTemplate
  {
    if stderrIsOsStderr then TimestampTemplate + LogTemplate else LogTemplate
  }

  /** The gomol logger (*gomol.Base) the handle creates and owns. Only what the handle
      observes of it is modelled: its template and whether its loggers are initialised. */
  class LoggerBase {
    const template: string
    var initialized: bool

    /** gomol.NewBase, with the console logger and template added: not yet initialised. */
    constructor (template: string)
      ensures this.template == template && !initialized
    {
      this.template := template;
      initialized := false;
    }

    /** InitLoggers: the loggers start accepting messages. */
    method InitLoggers()
      modifies this
      ensures initialized
    {
      initialized := true;
    }

    /** ShutdownLoggers: the queued messages are flushed and the loggers closed. */
    method ShutdownLoggers()
      modifies this
      ensures !initialized
    {
      initialized := false;
    }
  }

  /** The handle's ExitHandler: nil (os.Exit is called instead), a handler that does not
      return (os.Exit itself, or the tests' handler that panics), or one that returns. */
  datatype ExitHandler = NoHandler | Diverging | Returning

  /** The observable steps of Exit, in the order they happen. */
  datatype Event =
    | ShutdownLoggers          // the logger's sinks are flushed and closed
    | CallHandler(code: int)   // ExitHandler(code) is invoked
    | OsExit(code: int)        // os.Exit(code), as no handler is configured
    | Panicked(message: string) // Exit panics

  /** What Exit(code) does, given whether an initialised logger exists and which handler is
      configured. */
  function ExitTrace(shutdown: bool, handler: ExitHandler, code: int): seq<Event> {
    (if shutdown then [ShutdownLoggers] else []) +
    match handler
    case NoHandler => [OsExit(code)]
    case Diverging => [CallHandler(code)]
    case Returning => [CallHandler(code), Panicked(ExitHandlerReturned)]
  }

  /** Exit hands control away exactly once, to the handler if one is configured and to
      os.Exit otherwise, and always with exactly `code`. */
  lemma ExitHandsOffOnce(shutdown: bool, handler: ExitHandler, code: int)
    ensures var t := ExitTrace(shutdown, handler, code);
      var k := if shutdown then 1 else 0;
      k < |t| &&
      t[k] == (if handler == NoHandler then OsExit(code) else CallHandler(code)) &&
      forall j :: 0 <= j < |t| && j != k ==> !t[j].CallHandler? && !t[j].OsExit?
  {
  }

  /** The logger is shut down iff it existed and was initialised, at most once, and before
      control is handed to the handler or os.Exit. */
  lemma ShutdownBeforeHandOff(shutdown: bool, handler: ExitHandler, code: int)
    ensures var t := ExitTrace(shutdown, handler, code);
      (ShutdownLoggers in t <==> shutdown) &&
      forall i, j :: 0 <= i < |t| && 0 <= j < |t| && t[i] == ShutdownLoggers ==>
        i == 0 && (j != i ==> t[j] != ShutdownLoggers)
  {
  }

  /** Exit panics iff the configured handler returns, with "exit handler returned", and the
      panic is its last step. */
  lemma ExitPanicsIffHandlerReturns(shutdown: bool, handler: ExitHandler, code: int)
    ensures var t := ExitTrace(shutdown, handler, code);
      (t[|t| - 1] == Panicked(ExitHandlerReturned) <==> handler == Returning) &&
      forall i :: 0 <= i < |t| - 1 ==> !t[i].Panicked?
  {
  }

  /** The process handle. The configuration fields are public and may be reassigned by the
      owner, as in the source; `logger` and `errch` (unexported in the source) are created on
    demand. `delivered` records that HandleError's send has completed: the channel Errors
    hands out is receive-only, so only HandleError ever closes it. */
  class App {
    var environment: seq<string>
    var contextCancelled: bool    // Context.Done() has fired
    var exitHandler: ExitHandler
    var stderrIsOsStderr: bool    // Stderr == os.Stderr

    var logger: LoggerBase?
    var errch: Channels.ErrorChannel?
    ghost var delivered: bool

    /** The error channel, once it exists, is single-shot, and it is closed exactly when
        HandleError has delivered an error on it. A holder of the channel that sends on it or
        closes it itself (which Go's receive-only type forbids) breaks this invariant. */
    ghost predicate Valid()
      reads this, errch
    {
      (errch == null ==> !delivered) &&
      (errch != null ==>
        errch.Valid() && Channels.SingleShot(errch.State()) && (errch.closed <==> delivered))
    }

    /** A handle built from explicit values, as the tests build theirs: no logger and no
        error channel yet. */
    constructor (environment: seq<string>, contextCancelled: bool, exitHandler: ExitHandler, stderrIsOsStderr: bool)
      ensures Valid()
      ensures this.environment == environment && this.contextCancelled == contextCancelled
      ensures this.exitHandler == exitHandler && this.stderrIsOsStderr == stderrIsOsStderr
      ensures logger == null && errch == null
    {
      this.environment := environment;
      this.contextCancelled := contextCancelled;
      this.exitHandler := exitHandler;
      this.stderrIsOsStderr := stderrIsOsStderr;
      logger, errch := null, null;
      delivered := false;
    }

    /** Exit(code): shuts the logger down if one exists and is initialised, forgets it, then
        hands control to the exit handler (os.Exit when there is none); a handler that
        returns makes Exit panic. */
    method Exit(code: int) returns (trace: seq<Event>)
      modifies this`logger, logger
      ensures logger == null
      ensures old(logger) != null ==> !old(logger).initialized
      ensures trace == ExitTrace(old(logger != null && logger.initialized), exitHandler, code)
    {
      trace := [];
      if logger != null {
        if logger.initialized {
          logger.ShutdownLoggers();
          trace := trace + [ShutdownLoggers];
        }
        logger := null;
      }
      match exitHandler
      case NoHandler =>
        trace := trace + [OsExit(code)];
      case Diverging =>
        trace := trace + [CallHandler(code)];
      case Returning =>
        trace := trace + [CallHandler(code)];
        trace := trace + [Panicked(ExitHandlerReturned)];
    }

    /** Logger(): the first call creates an initialised logger with the template for this
        handle's Stderr and stores it; every later call returns that same instance and
        creates nothing. */
    method Logger() returns (l: LoggerBase)
      modifies this`logger
      ensures logger == l
      ensures old(logger) != null ==> l == old(logger) && unchanged(l)
      ensures old(logger) == null ==> fresh(l) && l.initialized && l.template == TemplateFor(stderrIsOsStderr)
    {
      if logger == null {
        var base := new LoggerBase(TemplateFor(stderrIsOsStderr));
        logger := base;
        base.InitLoggers();
      }
      l := logger;
    }

    /** ensureErrorChannel: makes the channel (capacity 1) only if there is none yet. */
    method EnsureErrorChannel()
      requires Valid()
      modifies this`errch
      ensures Valid() && errch != null
      ensures old(errch) != null ==> errch == old(errch)
      ensures old(errch) == null ==> fresh(errch) && errch.State() == Channels.Empty
    {
      if errch == null {
        errch := new Channels.ErrorChannel();
      }
    }

    /** Errors(): the handle's error channel, made on first use; every call returns the same
        channel. */
    method Errors() returns (ch: Channels.ErrorChannel)
      requires Valid()
      modifies this`errch
      ensures Valid() && ch == errch
      ensures old(errch) != null ==> ch == old(errch)
      ensures old(errch) == null ==> fresh(ch) && ch.State() == Channels.Empty
    {
      EnsureErrorChannel();
      ch := errch;
    }

    /** HandleError(e): sends `e` on the error channel and closes it. It never blocks and
        always leaves the channel closed; on a channel already closed by an earlier call it
        panics. */
    method HandleError(e: Channels.Error) returns (o: Channels.Outcome)
      requires Valid()
      modifies this`errch, this`delivered, errch
      ensures Valid() && errch != null && delivered
      ensures old(errch) != null ==> errch == old(errch)
      ensures old(errch) == null ==> fresh(errch)
      ensures (o, errch.State()) ==
        Channels.SendThenClose(if old(errch) == null then Channels.Empty else old(errch.State()), e)
      ensures o != Channels.Blocks && errch.State().closed
    {
      EnsureErrorChannel();
      ghost var before := errch.State();
      Channels.SendThenCloseSingleShot(before, e);
      o := errch.Send(e);
      if o == Channels.Done {
        o := errch.Close();
        delivered := true;
      }
    }

    /** LookupEnv(key): the value of some entry defining `key`, unless the context was
        cancelled when the call was made or no entry defines it. */
    method LookupEnv(key: string) returns (value: string, found: bool)
      ensures Env.Admissible(environment, key, contextCancelled, value, found)
    {
      value, found := Env.Lookup(environment, key, contextCancelled);
    }
  }
}
