/**
 * `LoggerService` (src/app/core/logger/logger.service.ts) and `Logger`
 * (src/app/core/logger/logger.ts): severity-filtered logging to the console.
 *
 * The console is a `Console` object whose `lines` record what was written,
 * with which console method (the severity) and for which component and
 * method; the message arguments are the `msg` sequence. The ISO timestamp
 * the service prefixes is not modelled.
 */
module Logging {
  import opened Wrappers

  /** `LogSeverity`, whose numeric values order it. */
  datatype Severity = DEBUG | INFO | WARN | ERROR

  function Rank(s: Severity): (n: nat)
    ensures n <= 3
  {
    match s
    case DEBUG => 0
    case INFO => 1
    case WARN => 2
    case ERROR => 3
  }

  lemma RankOrder()
    ensures Rank(DEBUG) < Rank(INFO) < Rank(WARN) < Rank(ERROR)
  {
  }

  lemma RankInjective(a: Severity, b: Severity)
    ensures Rank(a) == Rank(b) ==> a == b
  {
  }

  /** The level the service applies: the requested level, lowered to the global one. */
  function EffectiveLevel(requested: Severity, global: Severity): (r: Severity)
    ensures Rank(r) <= Rank(requested) && Rank(r) <= Rank(global)
    ensures r == requested || r == global
  {
    if Rank(global) < Rank(requested) then global else requested
  }

  /** Whether `LoggerService.log` writes a message: enabled, and severe enough for the effective level. */
  predicate ServiceEmits(enabled: bool, global: Severity, severity: Severity, requested: Severity) {
    enabled && Rank(severity) >= Rank(EffectiveLevel(requested, global))
  }

  /** Emission is decided by the smaller of the two levels: a message passes iff it reaches either one. */
  lemma ServiceEmitsIff(enabled: bool, global: Severity, severity: Severity, requested: Severity)
    ensures ServiceEmits(enabled, global, severity, requested) <==>
      enabled && (Rank(severity) >= Rank(requested) || Rank(severity) >= Rank(global))
  {
  }

  /** An enabled service writes every error, whatever the levels. */
  lemma ErrorsAlwaysEmitted(global: Severity, requested: Severity)
    ensures ServiceEmits(true, global, ERROR, requested)
  {
  }

  /** Lowering the global level never silences a message. */
  lemma LowerGlobalEmitsMore(enabled: bool, g1: Severity, g2: Severity, severity: Severity, requested: Severity)
    requires Rank(g2) <= Rank(g1)
    requires ServiceEmits(enabled, g1, severity, requested)
    ensures ServiceEmits(enabled, g2, severity, requested)
  {
  }

  /** One line written to the console. */
  datatype LogLine = LogLine(severity: Severity, componentName: string, methodName: string, msg: seq<string>)

  class Console {
    var lines: seq<LogLine>

    constructor ()
      ensures lines == []
    {
      lines := [];
    }
  }

  class LoggerService {
    var enabled: bool
    var globalLoglevel: Severity
    const console: Console

    constructor (console: Console)
      ensures enabled && globalLoglevel == DEBUG && this.console == console
    {
      this.console := console;
      enabled := true;
      globalLoglevel := DEBUG;
    }

    /** `configure(enable, level)`: sets both fields and nothing else. */
    method Configure(enable: bool, level: Severity)
      modifies this
      ensures enabled == enable && globalLoglevel == level
    {
      enabled := enable;
      globalLoglevel := level;
    }

    /** `log(severity, logLevel, component, method, ...msg)`. */
    method Log(severity: Severity, logLevel: Severity, componentName: string, methodName: string, msg: seq<string>)
      modifies console
      ensures ServiceEmits(enabled, globalLoglevel, severity, logLevel) ==>
        console.lines == old(console.lines) + [LogLine(severity, componentName, methodName, msg)]
      ensures !ServiceEmits(enabled, globalLoglevel, severity, logLevel) ==> console.lines == old(console.lines)
    {
      if !enabled {
        return;
      }
      var level := logLevel;
      if Rank(globalLoglevel) < Rank(level) {
        level := globalLoglevel;
      }
      if Rank(severity) < Rank(level) {
        return;
      }
      console.lines := console.lines + [LogLine(severity, componentName, methodName, msg)];
    }

    /** `createLocalLoggerInstance(name, level)`: a logger bound to this service. */
    method CreateLocalLoggerInstance(componentName: string, logLevel: Severity) returns (l: Logger)
      ensures fresh(l)
      ensures l.enabled == enabled && l.defaultLogLevel == logLevel && l.componentName == componentName
      ensures l.service == Some(this) && l.console == console
    {
      l := new Logger(enabled, logLevel, Some(this), componentName, console);
    }
  }

  class Logger {
    var enabled: bool
    var defaultLogLevel: Severity
    var componentName: string
    const service: Option<LoggerService>
    /** Where a logger without a service writes (`localLog`); a service's logger shares its console. */
    const console: Console

    constructor (enabled: bool, defaultLogLevel: Severity, service: Option<LoggerService>, componentName: string, console: Console)
      ensures this.enabled == enabled && this.defaultLogLevel == defaultLogLevel
      ensures this.service == service && this.componentName == componentName && this.console == console
    {
      this.enabled := enabled;
      this.defaultLogLevel := defaultLogLevel;
      this.service := service;
      this.componentName := componentName;
      this.console := console;
    }

    ghost predicate Valid()
      reads this
    {
      service.Some? ==> service.value.console == console
    }

    /** `appendComponentName(s)`. */
    method AppendComponentName(sub: string)
      modifies this
      ensures componentName == old(componentName) + "::" + sub
      ensures enabled == old(enabled) && defaultLogLevel == old(defaultLogLevel)
    {
      componentName := componentName + "::" + sub;
    }

    /** `configure(enable, level)`: sets the logger's own flag and default level. */
    method Configure(enable: bool, level: Severity)
      modifies this
      ensures enabled == enable && defaultLogLevel == level && componentName == old(componentName)
    {
      enabled := enable;
      defaultLogLevel := level;
    }

    /**
     * `log(severity, method, ...msg)`: nothing when disabled; through the
     * service with the logger's default level when it has one; otherwise
     * straight to the console, unfiltered.
     */
    method Log(severity: Severity, methodName: string, msg: seq<string>)
      requires Valid()
      modifies console
      ensures var line := LogLine(severity, componentName, methodName, msg);
        var written := enabled && (service.None? || ServiceEmits(service.value.enabled, service.value.globalLoglevel, severity, defaultLogLevel));
        && (written ==> console.lines == old(console.lines) + [line])
        && (!written ==> console.lines == old(console.lines))
    {
      if !enabled {
        return;
      }
      if service.Some? {
        service.value.Log(severity, defaultLogLevel, componentName, methodName, msg);
      } else {
        console.lines := console.lines + [LogLine(severity, componentName, methodName, msg)];
      }
    }

    /** `debug`, `info`, `warn` and `err`: `log` at the matching severity. */
    method Debug(methodName: string, msg: seq<string>)
      requires Valid()
      modifies console
      ensures var written := enabled && (service.None? || ServiceEmits(service.value.enabled, service.value.globalLoglevel, DEBUG, defaultLogLevel));
        console.lines == old(console.lines) + (if written then [LogLine(DEBUG, componentName, methodName, msg)] else [])
    {
      Log(DEBUG, methodName, msg);
    }

    method Info(methodName: string, msg: seq<string>)
      requires Valid()
      modifies console
      ensures var written := enabled && (service.None? || ServiceEmits(service.value.enabled, service.value.globalLoglevel, INFO, defaultLogLevel));
        console.lines == old(console.lines) + (if written then [LogLine(INFO, componentName, methodName, msg)] else [])
    {
      Log(INFO, methodName, msg);
    }

    method Warn(methodName: string, msg: seq<string>)
      requires Valid()
      modifies console
      ensures var written := enabled && (service.None? || ServiceEmits(service.value.enabled, service.value.globalLoglevel, WARN, defaultLogLevel));
        console.lines == old(console.lines) + (if written then [LogLine(WARN, componentName, methodName, msg)] else [])
    {
      Log(WARN, methodName, msg);
    }

    method Err(methodName: string, msg: seq<string>)
      requires Valid()
      modifies console
      ensures var written := enabled && (service.None? || ServiceEmits(service.value.enabled, service.value.globalLoglevel, ERROR, defaultLogLevel));
        console.lines == old(console.lines) + (if written then [LogLine(ERROR, componentName, methodName, msg)] else [])
    {
      Log(ERROR, methodName, msg);
    }
  }
}
