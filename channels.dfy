/**
 * The destination channel a FormattingChannel passes messages to. Concrete
 * channels (console, file, network) are replaced by one that records every
 * call it receives, so that what reaches it can be stated exactly.
 */
module Channels {
  import opened Messages

  /** One call received by a channel. */
  datatype Event =
    | Logged(msg: Message)
    | PropertySet(name: string, value: string)
    | Opened
    | Closed

  /** A channel whose whole observable state is the trace of calls it received. */
  class Channel {
    var trace: seq<Event>

    constructor ()
      ensures trace == []
    {
      trace := [];
    }

    method Log(msg: Message)
      modifies this
      ensures trace == old(trace) + [Logged(msg)]
    {
      trace := trace + [Logged(msg)];
    }

    method SetProperty(name: string, value: string)
      modifies this
      ensures trace == old(trace) + [PropertySet(name, value)]
    {
      trace := trace + [PropertySet(name, value)];
    }

    method Open()
      modifies this
      ensures trace == old(trace) + [Opened]
    {
      trace := trace + [Opened];
    }

    method Close()
      modifies this
      ensures trace == old(trace) + [Closed]
    {
      trace := trace + [Closed];
    }
  }
}
