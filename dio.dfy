/**
 * Digital output channels. A write to a channel is observed only as an
 * event appended to a trace; the electrical effect is not modelled.
 */
module Dio {

  /** A digital output channel identifier. */
  type Channel = nat

  /** DIO_STATE_LOW and DIO_STATE_HIGH. */
  datatype State = Low | High

  /** One call of the channel-write routine. */
  datatype Write = Write(channel: Channel, state: State)

  /** The output port: the sequence of writes performed so far. */
  class Bus {
    var trace: seq<Write>

    constructor ()
      ensures trace == []
    {
      trace := [];
    }

    /** Drives `channel` to `state`. */
    method ChannelWrite(channel: Channel, state: State)
      modifies this
      ensures trace == old(trace) + [Write(channel, state)]
    {
      trace := trace + [Write(channel, state)];
    }
  }
}
