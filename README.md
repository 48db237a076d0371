# FormattingChannel, modelled in Dafny

A model of Poco's `FormattingChannel`: a filter channel in the logging
pipeline that routes a `Message` through an optional `Formatter` and passes
the result on to an optional destination `Channel`. The filter's whole state
is its two independently nullable references, `_pFormatter` and `_pChannel`.
The model keeps them as two fields of a Dafny class that the setters and
`setProperty` overwrite. `log`, `open` and `close` act only by calling the
attached channel.

The collaborators are abstracted:

- `Messages.Message` is a value carrying the text and an opaque envelope
  (source, priority, time). `log` takes its message by `const&`, and a Dafny
  datatype value cannot be changed by the callee, so the caller's message is
  never modified.
- `Formatters.Formatter` is a shared object whose behaviour is a fixed
  function from message to text.
- `Channels.Channel` stands for every concrete channel. It records each call
  it receives (`Logged`, `PropertySet`, `Opened`, `Closed`) in a `trace`, so
  that what a FormattingChannel does to its channel can be stated exactly.
  It is a stand-in and not part of the source.
- `Registries.Registry` stands for the LoggingRegistry. It is two name
  tables, one for channels and one for formatters, passed to `SetProperty`
  as a parameter instead of being reached as a global.

Files: `results.dfy` (Result/Outcome), `messages.dfy`, `formatters.dfy`,
`channels.dfy`, `registries.dfy`, `formatting_channel.dfy` (the class and its
specification functions `Forwarded` and `Configured`), `chains.dfy` (filters
in series), `scenarios.dfy` (client methods built only from the contracts).

Only the header `Foundation/include/Poco/FormattingChannel.h` is modelled. The
implementation file, `Channel.h`, `Formatter.h`, `Message.h` and
`LoggingRegistry.h` are not part of this model. Every contract comes from the
header's declarations and doc comments. Two behaviours that the header does not
state are assumptions of this model:

- `Log` with no channel attached drops the message and changes nothing.
- `SetProperty` with a name other than "channel" or "formatter" and no channel
  attached fails with `PropertyNotSupported(name)` and changes nothing.

## Model

| member | source | states |
|---|---|---|
| `Registries.ChannelForName` | Foundation/include/Poco/FormattingChannel.h:76-77 | the registry lookup behind the "channel" property: succeeds exactly when the name is registered, returns that channel, and otherwise fails with NotFound(name) |
| `Registries.FormatterForName` | Foundation/include/Poco/FormattingChannel.h:76-77 | the same for the "formatter" property and the formatter table |
| `FormattingChannels.Forwarded` | Foundation/include/Poco/FormattingChannel.h:68-71 | the message passed on: with no formatter it is the message unmodified (lines 52-54); with one, its text is the formatter's rendering of the message; in both cases source, priority and time are those of the original |
| `FormattingChannels.Configured` | Foundation/include/Poco/FormattingChannel.h:73-80 | "channel" and "formatter" succeed exactly when the value is registered, then set that one reference to the registry's entry and leave the other unchanged; any other name leaves both references unchanged and succeeds exactly when a channel is attached; the error is NotFound(value) for the two own properties and PropertyNotSupported(name) otherwise |
| `FormattingChannels.FormattingChannel.constructor` | Foundation/include/Poco/FormattingChannel.h:41-42 | no formatter and no channel attached |
| `FormattingChannels.FormattingChannel.WithFormatter` | Foundation/include/Poco/FormattingChannel.h:44-45 | the given formatter attached, no channel |
| `FormattingChannels.FormattingChannel.WithFormatterAndChannel` | Foundation/include/Poco/FormattingChannel.h:47-49 | the given formatter and channel both attached |
| `FormattingChannels.FormattingChannel.SetFormatter` | Foundation/include/Poco/FormattingChannel.h:51-54 | the formatter becomes the argument, which may be null; the channel reference is unchanged |
| `FormattingChannels.FormattingChannel.GetFormatter` | Foundation/include/Poco/FormattingChannel.h:56-58 | returns the current formatter, possibly null, and modifies nothing |
| `FormattingChannels.FormattingChannel.SetChannel` | Foundation/include/Poco/FormattingChannel.h:60-62 | the channel becomes the argument; the formatter reference is unchanged |
| `FormattingChannels.FormattingChannel.GetChannel` | Foundation/include/Poco/FormattingChannel.h:64-66 | returns the current channel, possibly null, and modifies nothing |
| `FormattingChannels.FormattingChannel.Log` | Foundation/include/Poco/FormattingChannel.h:68-71 | the attached channel receives exactly one message, `Forwarded(formatter, msg)`, appended to what it had received before; neither reference changes; only the attached channel may be modified |
| `FormattingChannels.FormattingChannel.SetProperty` | Foundation/include/Poco/FormattingChannel.h:73-80 | the new references are those `Configured` gives and the outcome is Pass, or on its error the references are unchanged and the outcome carries that error; a name other than "channel" or "formatter" is passed unchanged, once, to the channel attached before the call, and the two own names leave that channel untouched |
| `FormattingChannels.FormattingChannel.Open` | Foundation/include/Poco/FormattingChannel.h:82-83 | the attached channel is opened exactly once; neither reference changes |
| `FormattingChannels.FormattingChannel.Close` | Foundation/include/Poco/FormattingChannel.h:85-86 | the attached channel is closed exactly once; neither reference changes |
| `Chains.ThroughChain` | Foundation/include/Poco/FormattingChannel.h:33-36 | a FormattingChannel is itself a Channel, so filters chain: what the last channel receives keeps the original message's source, priority and time, and a chain without any formatter delivers the message unmodified |
| `Chains.ChainConcat` | Foundation/include/Poco/FormattingChannel.h:33-36 | putting one chain of filters in front of another delivers the same message as the single chain of all their filters |
| `Chains.LastFormatterDecidesText` | Foundation/include/Poco/FormattingChannel.h:68-71 | when the last filter of a chain has a formatter, the delivered text is that formatter's rendering of what the earlier filters passed on |
| `Scenarios.UppercaseScenario` | Foundation/include/Poco/FormattingChannel.h:68-71 | an upper-casing formatter in front of a channel: logging "hi" delivers exactly one message, with text "HI" and the original envelope |
| `Scenarios.ReplacementScenario` | Foundation/include/Poco/FormattingChannel.h:51-54 | after the formatter is replaced, logging formats with the new formatter, never the old one |
| `Scenarios.RegistryScenario` | Foundation/include/Poco/FormattingChannel.h:73-80 | setting "channel" to an unregistered name fails with NotFound and attaches nothing; a registered name attaches that channel, which then receives the logged message unmodified |

## Left out

- Reference counting: `AutoPtr`/`Ptr` and the protected destructor (lines 24, 39, 89) are memory management. Formatters and channels are plain shared object references.
- Concrete formatters and channels: they are represented by a formatter that is any function from message to text and by a channel that records the calls it receives.
- Chaining in the class model: Dafny here has no traits, so the class's destination is a `Channels.Channel` and cannot be another `FormattingChannel` object. Chains of filters are modelled on values in `Chains`.
- Message fields other than text, source, priority and time (thread, process id, file, line, parameters) are not modelled. They belong to the envelope that is carried through unchanged.
- Exceptions raised by a formatter or a channel are not modelled. The filter does not catch them, so they would simply propagate.
- FormattingChannels.FormattingChannel.Log: the formatter is a pure function here, so whether it is called when no channel is attached cannot be observed and is not stated.
- Thread safety: the class does no synchronisation, and races between the setters and `log` are out of scope.
- LoggingRegistry internals: registration and the global default registry are replaced by the injected `Registry` value.
