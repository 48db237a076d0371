/** The formatter capability: turns a message into text. */
module Formatters {
  import opened Messages

  /**
   * A formatter object. It is shared by reference between the channels it
   * is attached to; its behaviour is a fixed rendering function.
   */
  class Formatter {
    const render: Message -> string

    constructor (render: Message -> string)
      ensures this.render == render
    {
      this.render := render;
    }
  }
}
