/**
 * The record every probe produces (message/message.go) and the result sinks
 * it is handed to (writer/writer.go).
 */
module Message {
  /**
   * One probe outcome. `timestamp` is the probe start, already rendered as
   * RFC 3339 text; `latencyMs` is the elapsed time in whole milliseconds;
   * `status` is "OK" or "ERROR"; `message` is the HTTP status text or the
   * transport error's description.
   */
  datatype Message = Message(
    timestamp: string,
    status: string,
    latencyMs: int,
    url: string,
    message: string)

  /**
   * A result sink. Only its identity matters to the core: every sink is
   * handed every record. The console sink is the one installed by default.
   */
  datatype Writer = ConsoleWriter | ExternalWriter(name: string)
}
