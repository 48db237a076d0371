/**
 * The logging registry, as far as a FormattingChannel uses it: two name
 * tables, one for channels and one for formatters, passed in explicitly.
 */
module Registries {
  import opened Results
  import opened Formatters
  import opened Channels

  /** Why a configuration call failed. */
  datatype ConfigError =
    | NotFound(name: string)              // no channel or formatter registered under `name`
    | PropertyNotSupported(name: string)  // a property no one accepts

  datatype Registry = Registry(channels: map<string, Channel>, formatters: map<string, Formatter>)

  /** The channel registered under `name`, or NotFound. */
  function ChannelForName(registry: Registry, name: string): (r: Result<Channel, ConfigError>)
    ensures r.Ok? <==> name in registry.channels
    ensures r.Ok? ==> r.value == registry.channels[name]
    ensures r.Err? ==> r.error == NotFound(name)
  {
    if name in registry.channels then Ok(registry.channels[name]) else Err(NotFound(name))
  }

  /** The formatter registered under `name`, or NotFound. */
  function FormatterForName(registry: Registry, name: string): (r: Result<Formatter, ConfigError>)
    ensures r.Ok? <==> name in registry.formatters
    ensures r.Ok? ==> r.value == registry.formatters[name]
    ensures r.Err? ==> r.error == NotFound(name)
  {
    if name in registry.formatters then Ok(registry.formatters[name]) else Err(NotFound(name))
  }
}
