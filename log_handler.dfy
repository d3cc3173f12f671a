/**
 * AndroidLogHandler.publish: forwards a java.util.logging record to Android's
 * log at a priority chosen from the record's level. Levels are the standard
 * `Level.intValue()` constants.
 */
module LogHandler {
  import opened Wrappers

  const ALL: int := -0x8000_0000
  const FINEST: int := 300
  const FINER: int := 400
  const FINE: int := 500
  const CONFIG: int := 700
  const INFO: int := 800
  const WARNING: int := 900
  const SEVERE: int := 1000
  const OFF: int := 0x7fff_ffff

  /** Android log priorities used by the handler (`Log.v`, `Log.d`, `Log.i`, `Log.w`). */
  datatype Priority = Verbose | Debug | Info | Warn

  /** The parts of a LogRecord the handler reads. */
  datatype LogRecord = LogRecord(level: int, loggerName: string, message: string)

  /** One call of Android's log: priority, tag and text. */
  datatype LogCall = LogCall(priority: Priority, tag: string, text: string)

  /**
   * `publish`: at most one Android log call, tagged with the logger's name and
   * carrying the record's message. ALL, FINEST and FINER go out as verbose, FINE
   * as debug, CONFIG as info and WARNING as warn; every other level (INFO, SEVERE,
   * OFF and any custom one) produces nothing.
   */
  function Publish(record: LogRecord): (call: Option<LogCall>)
    ensures call.Some? ==> call.value.tag == record.loggerName && call.value.text == record.message
    ensures call.Some? <==> record.level in {ALL, FINEST, FINER, FINE, CONFIG, WARNING}
    ensures call.Some? && call.value.priority == Verbose <==> record.level in {ALL, FINEST, FINER}
    ensures call.Some? && call.value.priority == Debug <==> record.level == FINE
    ensures call.Some? && call.value.priority == Info <==> record.level == CONFIG
    ensures call.Some? && call.value.priority == Warn <==> record.level == WARNING
  {
    var msg, tag, level := record.message, record.loggerName, record.level;
    if ALL == level || FINEST == level || FINER == level then Some(LogCall(Verbose, tag, msg))
    else if FINE == level then Some(LogCall(Debug, tag, msg))
    else if CONFIG == level then Some(LogCall(Info, tag, msg))
    else if WARNING == level then Some(LogCall(Warn, tag, msg))
    else None
  }

  /** INFO and SEVERE are left to the system's own handler, and OFF is ignored. */
  lemma UnforwardedLevels(tag: string, msg: string)
    ensures Publish(LogRecord(INFO, tag, msg)) == None
    ensures Publish(LogRecord(SEVERE, tag, msg)) == None
    ensures Publish(LogRecord(OFF, tag, msg)) == None
  {
  }
}
