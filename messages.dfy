/** The log record that travels through a channel pipeline. */
module Messages {

  /** Severity of a message, most severe first. */
  datatype Priority = Fatal | Critical | Error | Warning | Notice | Information | Debug | Trace

  /**
   * One log event. A FormattingChannel only ever replaces `text`;
   * the other fields are an opaque envelope that it carries through.
   */
  datatype Message = Message(source: string, text: string, priority: Priority, time: int)

  /** `a` and `b` agree on everything except, possibly, their text. */
  predicate SameEnvelope(a: Message, b: Message) {
    a.source == b.source && a.priority == b.priority && a.time == b.time
  }
}
