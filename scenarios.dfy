/** Client code built only from the FormattingChannel's contracts. */
module Scenarios {
  import opened Results
  import opened Messages
  import opened Formatters
  import opened Channels
  import opened Registries
  import opened FormattingChannels

  function UpperChar(c: char): char {
    if 'a' <= c <= 'z' then (c as int - 32) as char else c
  }

  function Upper(s: string): string {
    seq(|s|, i requires 0 <= i < |s| => UpperChar(s[i]))
  }

  /** An upper-casing formatter in front of a recording channel: "hi" arrives as "HI". */
  method UppercaseScenario() returns (received: seq<Event>)
    ensures received == [Logged(Message("app", "HI", Information, 0))]
  {
    var upper := new Formatter((m: Message) => Upper(m.text));
    var sink := new Channel();
    var filter := new FormattingChannel.WithFormatterAndChannel(upper, sink);
    filter.Log(Message("app", "hi", Information, 0));
    received := sink.trace;
    assert Upper("hi") == "HI";
  }

  /** After the formatter is replaced, logging uses the new formatter only. */
  method ReplacementScenario(first: Formatter, second: Formatter, msg: Message) returns (received: seq<Event>)
    ensures received == [Logged(msg.(text := second.render(msg)))]
  {
    var sink := new Channel();
    var filter := new FormattingChannel.WithFormatterAndChannel(first, sink);
    filter.SetFormatter(second);
    filter.Log(msg);
    received := sink.trace;
  }

  /**
   * Configuring the channel by name: an unknown name fails and leaves the
   * filter without a channel; a registered one is attached and then receives
   * the (unformatted) message.
   */
  method RegistryScenario(msg: Message) returns (miss: Outcome<ConfigError>, hit: Outcome<ConfigError>, received: seq<Event>)
    ensures miss == Fail(NotFound("file"))
    ensures hit == Pass
    ensures received == [Logged(msg)]
  {
    var sink := new Channel();
    var registry := Registry(map["console" := sink], map[]);
    var filter := new FormattingChannel();
    miss := filter.SetProperty(ChannelProperty, "file", registry);
    hit := filter.SetProperty(ChannelProperty, "console", registry);
    filter.Log(msg);
    received := sink.trace;
  }
}
