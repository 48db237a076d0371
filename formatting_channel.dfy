/**
 * The FormattingChannel: a filter channel that routes each message through an
 * optional Formatter before passing it on to an optional destination Channel.
 */
module FormattingChannels {
  import opened Results
  import opened Messages
  import opened Formatters
  import opened Channels
  import opened Registries

  /** The two property names a FormattingChannel handles itself. */
  const ChannelProperty: string := "channel"
  const FormatterProperty: string := "formatter"

  predicate IsOwnProperty(name: string) {
    name == ChannelProperty || name == FormatterProperty
  }

  /** The whole state of a FormattingChannel: two independently nullable references. */
  datatype Config = Config(formatter: Formatter?, channel: Channel?)

  /**
   * The message passed on for `msg`: unmodified without a formatter, otherwise
   * a copy whose text is the formatter's rendering of `msg`.
   */
  function Forwarded(formatter: Formatter?, msg: Message): (r: Message)
    ensures formatter == null ==> r == msg
    ensures formatter != null ==> r.text == formatter.render(msg)
    ensures SameEnvelope(r, msg)
  {
    if formatter == null then msg else msg.(text := formatter.render(msg))
  }

  /**
   * The configuration after `setProperty(name, value)`: "channel" and
   * "formatter" replace that one reference with the registry's entry for
   * `value`; any other name leaves both references alone and is accepted
   * exactly when there is a channel to hand it to.
   */
  function Configured(cfg: Config, registry: Registry, name: string, value: string): (r: Result<Config, ConfigError>)
    ensures name == ChannelProperty ==>
      && (r.Ok? <==> value in registry.channels)
      && (r.Ok? ==> r.value.channel == registry.channels[value] && r.value.formatter == cfg.formatter)
    ensures name == FormatterProperty ==>
      && (r.Ok? <==> value in registry.formatters)
      && (r.Ok? ==> r.value.formatter == registry.formatters[value] && r.value.channel == cfg.channel)
    ensures !IsOwnProperty(name) ==>
      && (r.Ok? <==> cfg.channel != null)
      && (r.Ok? ==> r.value == cfg)
    ensures r.Err? ==> r.error == if IsOwnProperty(name) then NotFound(value) else PropertyNotSupported(name)
  {
    if name == ChannelProperty then
      match ChannelForName(registry, value)
      case Ok(c) => Ok(cfg.(channel := c))
      case Err(e) => Err(e)
    else if name == FormatterProperty then
      match FormatterForName(registry, value)
      case Ok(f) => Ok(cfg.(formatter := f))
      case Err(e) => Err(e)
    else if cfg.channel != null then
      Ok(cfg)
    else
      Err(PropertyNotSupported(name))
  }

  class FormattingChannel {
    var formatter: Formatter?
    var channel: Channel?

    function State(): Config
      reads this
    {
      Config(formatter, channel)
    }

    /** No formatter and no channel attached. */
    constructor ()
      ensures formatter == null && channel == null
    {
      formatter := null;
      channel := null;
    }

    /** A formatter attached, no channel. */
    constructor WithFormatter(f: Formatter?)
      ensures formatter == f && channel == null
    {
      formatter := f;
      channel := null;
    }

    /** Both a formatter and a channel attached. */
    constructor WithFormatterAndChannel(f: Formatter?, c: Channel?)
      ensures formatter == f && channel == c
    {
      formatter := f;
      channel := c;
    }

    method SetFormatter(f: Formatter?)
      modifies this
      ensures formatter == f && channel == old(channel)
    {
      formatter := f;
    }

    method GetFormatter() returns (f: Formatter?)
      ensures f == formatter
    {
      f := formatter;
    }

    method SetChannel(c: Channel?)
      modifies this
      ensures channel == c && formatter == old(formatter)
    {
      channel := c;
    }

    method GetChannel() returns (c: Channel?)
      ensures c == channel
    {
      c := channel;
    }

    /**
     * Passes exactly one message, the formatted copy of `msg`, to the attached
     * channel; with no channel the message is dropped. Neither reference changes.
     */
    method Log(msg: Message)
      modifies channel
      ensures formatter == old(formatter) && channel == old(channel)
      ensures channel != null ==> channel.trace == old(channel.trace) + [Logged(Forwarded(formatter, msg))]
    {
      if channel != null {
        if formatter != null {
          var text := formatter.render(msg);
          channel.Log(msg.(text := text));
        } else {
          channel.Log(msg);
        }
      }
    }

    /**
     * Sets "channel" or "formatter" from the registry, or hands any other
     * property to the attached channel. On an error nothing changes.
     */
    method SetProperty(name: string, value: string, registry: Registry) returns (outcome: Outcome<ConfigError>)
      modifies this, channel
      ensures Configured(old(State()), registry, name, value).Ok? ==>
        State() == Configured(old(State()), registry, name, value).value && outcome == Pass
      ensures Configured(old(State()), registry, name, value).Err? ==>
        State() == old(State()) && outcome == Fail(Configured(old(State()), registry, name, value).error)
      ensures old(channel) != null ==>
        old(channel).trace == old(channel.trace) + (if IsOwnProperty(name) then [] else [PropertySet(name, value)])
    {
      if name == ChannelProperty {
        match ChannelForName(registry, value)
        case Ok(c) =>
          SetChannel(c);
          outcome := Pass;
        case Err(e) =>
          outcome := Fail(e);
      } else if name == FormatterProperty {
        match FormatterForName(registry, value)
        case Ok(f) =>
          SetFormatter(f);
          outcome := Pass;
        case Err(e) =>
          outcome := Fail(e);
      } else if channel != null {
        channel.SetProperty(name, value);
        outcome := Pass;
      } else {
        outcome := Fail(PropertyNotSupported(name));
      }
    }

    /** Opens the attached channel, once; nothing else changes. */
    method Open()
      modifies channel
      ensures formatter == old(formatter) && channel == old(channel)
      ensures channel != null ==> channel.trace == old(channel.trace) + [Opened]
    {
      if channel != null {
        channel.Open();
      }
    }

    /** Closes the attached channel, once; nothing else changes. */
    method Close()
      modifies channel
      ensures formatter == old(formatter) && channel == old(channel)
      ensures channel != null ==> channel.trace == old(channel.trace) + [Closed]
    {
      if channel != null {
        channel.Close();
      }
    }
  }
}
