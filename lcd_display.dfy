/**
 * The producer side of the character-LCD driver: per-display command
 * queues, the tag bit that marks a queued byte as a command, start-up and
 * clear commands, and the 4-bit byte transmitter seen as pin writes.
 */
module LcdDisplay {
  import opened CircBuffer
  import opened Dio
  import opened LcdDisplayCfg

  /** Number of start-up commands (LCD_DISPLAY_INIT_CMD_SIZE). */
  const InitCmdSize: nat := 4

  /** Clear the display and set the DDRAM address to 0. */
  const CmdClear: Byte := 0x01
  /** Select the 4-bit interface. */
  const Cmd4Bit: Byte := 0x28
  /** Display on, cursor off. */
  const CmdOn: Byte := 0x0C
  /** Increment the address after each character, no shift. */
  const CmdInc: Byte := 0x06

  /** The start-up sequence, in the order it is queued. */
  const InitCmds: seq<Byte> := [CmdClear, Cmd4Bit, CmdOn, CmdInc]

  /** Values of the data/command flag passed to the transmitter (LcdDataFlag_t). */
  const FlagData: nat := 0
  const FlagCmd: nat := 1
  const FlagMax: nat := 2

  // ---------------------------------------------------------------------------
  // Tag-bit codec: the most significant bit of a queued byte marks a command.
  // ---------------------------------------------------------------------------

  /** A queued byte is a command exactly when its top bit is set. */
  predicate IsCommand(b: Byte) {
    b & 0x80 != 0
  }

  /** The 7-bit payload carried beside the tag. */
  function Payload(b: Byte): Byte {
    b & 0x7F
  }

  /** The queued form of a command byte. */
  function Tag(command: Byte): (b: Byte)
    ensures IsCommand(b)
    ensures Payload(b) == Payload(command)
    ensures b == command <==> IsCommand(command)
  {
    command | 0x80
  }

  /** Two commands share a queued form exactly when their payloads agree. */
  lemma TagEqual(c1: Byte, c2: Byte)
    ensures Tag(c1) == Tag(c2) <==> Payload(c1) == Payload(c2)
  {
  }

  /** Every command of a sequence in its queued form, in order. */
  function TagAll(commands: seq<Byte>): (r: seq<Byte>)
    ensures |r| == |commands|
    ensures forall i :: 0 <= i < |r| ==> IsCommand(r[i]) && Payload(r[i]) == Payload(commands[i])
  {
    seq(|commands|, i requires 0 <= i < |commands| => Tag(commands[i]))
  }

  /** The queue of every display right after start-up. */
  function StartupQueue(): CircBuff {
    EnqueueAll(Create(BufferSize), TagAll(InitCmds))
  }

  /** The start-up commands all fit, in order, with their tag bits set. */
  lemma StartupQueueContents()
    ensures StartupQueue().Valid() && StartupQueue().capacity == BufferSize
    ensures StartupQueue().items == [0x81, 0xA8, 0x8C, 0x86]
  {
  }

  /** The queue after the first `cmd` start-up commands. */
  function StartupPrefix(cmd: nat): CircBuff
    requires cmd <= InitCmdSize
  {
    EnqueueAll(Create(BufferSize), TagAll(InitCmds[..cmd]))
  }

  /** Queueing start-up command `cmd` extends the queue built from the commands before it. */
  lemma StartupStep(cmd: nat)
    requires cmd < InitCmdSize
    ensures StartupPrefix(0) == Create(BufferSize)
    ensures StartupPrefix(cmd + 1) == Enqueue(StartupPrefix(cmd), Tag(InitCmds[cmd])).0
    ensures StartupPrefix(InitCmdSize) == StartupQueue()
  {
    assert TagAll(InitCmds[..cmd + 1]) == TagAll(InitCmds[..cmd]) + [Tag(InitCmds[cmd])];
    EnqueueAllSnoc(Create(BufferSize), TagAll(InitCmds[..cmd]), Tag(InitCmds[cmd]));
    assert InitCmds[..InitCmdSize] == InitCmds;
  }

  // ---------------------------------------------------------------------------
  // The command queues of all displays.
  // ---------------------------------------------------------------------------

  class Driver {
    /** One bounded queue per display (LcdDisplayBuff). */
    const buffers: array<CircBuff>

    ghost predicate Valid()
      reads this, buffers
    {
      && buffers.Length == DisplayCount
      && forall d :: 0 <= d < buffers.Length ==> buffers[d].Valid() && buffers[d].capacity == BufferSize
    }

    /** The queues as they stand before start-up: any bounded contents. */
    constructor (initial: seq<CircBuff>)
      requires |initial| == DisplayCount
      requires forall d :: 0 <= d < |initial| ==> initial[d].Valid() && initial[d].capacity == BufferSize
      ensures Valid() && fresh(buffers)
      ensures buffers[..] == initial
    {
      buffers := new CircBuff[DisplayCount](d requires 0 <= d < DisplayCount => initial[d]);
    }

    /**
     * Queues `command` with its tag bit set on a valid display. An invalid
     * handle or a full queue leaves every queue as it was.
     */
    method SetCommand(display: Display, command: Byte)
      requires Valid()
      modifies buffers
      ensures Valid()
      ensures display < DisplayCount ==> buffers[display] == Enqueue(old(buffers[display]), Tag(command)).0
      ensures display < DisplayCount && |old(buffers[display].items)| < BufferSize ==>
                buffers[display].items == old(buffers[display].items) + [Tag(command)]
      ensures display >= DisplayCount || |old(buffers[display].items)| == BufferSize ==>
                buffers[..] == old(buffers[..])
      ensures forall e :: 0 <= e < DisplayCount && e != display ==> buffers[e] == old(buffers[e])
    {
      if !(display < DisplayCount) {
        return;
      }
      var tagged := Tag(command);
      // A full queue comes back unchanged, so the failure flag is not needed.
      var (q, _) := Enqueue(buffers[display], tagged);
      buffers[display] := q;
    }

    /** Queues the clear command on a valid display; otherwise changes nothing. */
    method Clear(display: Display)
      requires Valid()
      modifies buffers
      ensures Valid()
      ensures display < DisplayCount && |old(buffers[display].items)| < BufferSize ==>
                buffers[display].items == old(buffers[display].items) + [0x81]
      ensures display >= DisplayCount || |old(buffers[display].items)| == BufferSize ==>
                buffers[..] == old(buffers[..])
      ensures forall e :: 0 <= e < DisplayCount && e != display ==> buffers[e] == old(buffers[e])
    {
      if !(display < DisplayCount) {
        return;
      }
      SetCommand(display, CmdClear);
    }

    /**
     * With a configuration, empties every queue and then queues the
     * start-up sequence on each display; without one, changes nothing.
     */
    method Init(config: Option<seq<DisplayConfig>>)
      requires Valid()
      modifies buffers
      ensures Valid()
      ensures config.None? ==> buffers[..] == old(buffers[..])
      ensures config.Some? ==> forall d :: 0 <= d < DisplayCount ==> buffers[d] == StartupQueue()
      ensures config.Some? ==> forall d :: 0 <= d < DisplayCount ==> buffers[d].items == [0x81, 0xA8, 0x8C, 0x86]
    {
      if !(config.Some?) {
        return;
      }
      var display := 0;
      while display < DisplayCount
        invariant 0 <= display <= DisplayCount
        invariant Valid()
        invariant forall e :: 0 <= e < display ==> buffers[e] == Create(BufferSize)
      {
        buffers[display] := Create(BufferSize);
        display := display + 1;
      }
      display := 0;
      while display < DisplayCount
        invariant 0 <= display <= DisplayCount
        invariant Valid()
        invariant forall e :: 0 <= e < display ==> buffers[e] == StartupQueue()
        invariant forall e :: display <= e < DisplayCount ==> buffers[e] == Create(BufferSize)
      {
        ghost var before := buffers[..];
        StartupStep(0);
        var cmd := 0;
        while cmd < InitCmdSize
          invariant 0 <= cmd <= InitCmdSize
          invariant Valid()
          invariant buffers[..] == before[display := StartupPrefix(cmd)]
        {
          StartupStep(cmd);
          SetCommand(display, InitCmds[cmd]);
          cmd := cmd + 1;
        }
        display := display + 1;
      }
      StartupQueueContents();
    }
  }


  // ---------------------------------------------------------------------------
  // The byte transmitter: two nibbles, high first, each latched by an EN strobe.
  // ---------------------------------------------------------------------------

  /** Bit `k` of `data` is 1. */
  predicate BitSet(data: Byte, k: nat)
    requires k < 8
  {
    data & (1 << k) != 0
  }

  function LevelOf(bit: bool): State {
    if bit then High else Low
  }

  /** The register-select level for a flag: low for data, high for a command. */
  function RsLevel(flag: nat): State {
    if flag == FlagData then Low else High
  }

  /** Nibble 1 is the upper four bits of a byte, nibble 0 the lower four. */
  function NibbleValue(data: Byte, nibble: nat): Byte
    requires nibble < 2
  {
    if nibble == 1 then data >> 4 else data & 0x0F
  }

  /** Bit `ch` of nibble `nibble` is bit `ch + 4 * nibble` of the byte. */
  lemma NibbleBit(data: Byte, nibble: nat, ch: nat)
    requires nibble < 2 && ch < BitLen
    ensures BitSet(NibbleValue(data, nibble), ch) == BitSet(data, ch + 4 * nibble)
  {
  }

  /** The writes for one 4-bit value: data lines 0 to 3, RS, then EN high and low. */
  function NibbleWrites(cfg: DisplayConfig, nibble: Byte, flag: nat): seq<Write>
    requires WellFormed(cfg)
  {
    [ Write(cfg.data[0], LevelOf(BitSet(nibble, 0))), Write(cfg.data[1], LevelOf(BitSet(nibble, 1))),
      Write(cfg.data[2], LevelOf(BitSet(nibble, 2))), Write(cfg.data[3], LevelOf(BitSet(nibble, 3))),
      Write(cfg.rs, RsLevel(flag)), Write(cfg.en, High), Write(cfg.en, Low) ]
  }

  /** Proof helper: the positions of `NibbleWrites`, one by one, for `ByteWritesLayout`. */
  lemma NibbleWritesLayout(cfg: DisplayConfig, nibble: Byte, flag: nat)
    requires WellFormed(cfg)
    ensures |NibbleWrites(cfg, nibble, flag)| == 7
    ensures forall i :: 0 <= i < BitLen ==>
              NibbleWrites(cfg, nibble, flag)[i] == Write(cfg.data[i], LevelOf(BitSet(nibble, i)))
    ensures NibbleWrites(cfg, nibble, flag)[4] == Write(cfg.rs, RsLevel(flag))
    ensures NibbleWrites(cfg, nibble, flag)[5] == Write(cfg.en, High)
    ensures NibbleWrites(cfg, nibble, flag)[6] == Write(cfg.en, Low)
  {
  }

  /** The writes that transmit one byte: the high nibble, then the low one. */
  function ByteWrites(cfg: DisplayConfig, data: Byte, flag: nat): seq<Write>
    requires WellFormed(cfg)
  {
    NibbleWrites(cfg, NibbleValue(data, 1), flag) + NibbleWrites(cfg, NibbleValue(data, 0), flag)
  }

  /**
   * A transmission is fourteen writes. On data line `i` the first nibble
   * carries bit `i + 4` and the second bit `i`; each nibble then sets RS by
   * the flag and strobes EN high and low.
   */
  lemma ByteWritesLayout(cfg: DisplayConfig, data: Byte, flag: nat)
    requires WellFormed(cfg)
    ensures |ByteWrites(cfg, data, flag)| == 14
    ensures forall i :: 0 <= i < BitLen ==>
              ByteWrites(cfg, data, flag)[i] == Write(cfg.data[i], LevelOf(BitSet(data, i + 4)))
    ensures forall i :: 7 <= i < 7 + BitLen ==>
              ByteWrites(cfg, data, flag)[i] == Write(cfg.data[i - 7], LevelOf(BitSet(data, i - 7)))
    ensures ByteWrites(cfg, data, flag)[4] == ByteWrites(cfg, data, flag)[11] == Write(cfg.rs, RsLevel(flag))
    ensures ByteWrites(cfg, data, flag)[5] == ByteWrites(cfg, data, flag)[12] == Write(cfg.en, High)
    ensures ByteWrites(cfg, data, flag)[6] == ByteWrites(cfg, data, flag)[13] == Write(cfg.en, Low)
  {
    var w := ByteWrites(cfg, data, flag);
    var hi, lo := NibbleWrites(cfg, NibbleValue(data, 1), flag), NibbleWrites(cfg, NibbleValue(data, 0), flag);
    NibbleWritesLayout(cfg, NibbleValue(data, 1), flag);
    NibbleWritesLayout(cfg, NibbleValue(data, 0), flag);
    assert w == hi + lo;
    forall i | 0 <= i < BitLen
      ensures w[i] == Write(cfg.data[i], LevelOf(BitSet(data, i + 4)))
    {
      NibbleBit(data, 1, i);
    }
    forall i | 7 <= i < 7 + BitLen
      ensures w[i] == Write(cfg.data[i - 7], LevelOf(BitSet(data, i - 7)))
    {
      assert w[i] == lo[i - 7];
      NibbleBit(data, 0, i - 7);
    }
  }

  /** The value bit `k` contributes when a line was driven to `s`. */
  function LevelBit(s: State, k: nat): Byte
    requires k < 8
  {
    if s == High then 1 << k else 0
  }

  /** Reassembles a byte from the data-line levels of a two-nibble transmission. */
  function DecodeByte(w: seq<Write>): Byte
    requires |w| == 14
  {
    LevelBit(w[0].state, 4) | LevelBit(w[1].state, 5) | LevelBit(w[2].state, 6) | LevelBit(w[3].state, 7)
    | LevelBit(w[7].state, 0) | LevelBit(w[8].state, 1) | LevelBit(w[9].state, 2) | LevelBit(w[10].state, 3)
  }

  /** The data-line levels of a transmission determine the byte exactly. */
  lemma ByteWritesRoundTrip(cfg: DisplayConfig, data: Byte, flag: nat)
    requires WellFormed(cfg)
    ensures |ByteWrites(cfg, data, flag)| == 14
    ensures DecodeByte(ByteWrites(cfg, data, flag)) == data
  {
  }

  /** Number of writes that drive the enable pin high. */
  function Strobes(w: seq<Write>, en: Channel): nat {
    if w == [] then 0 else (if w[0] == Write(en, High) then 1 else 0) + Strobes(w[1..], en)
  }

  lemma {:induction false} StrobesAppend(a: seq<Write>, b: seq<Write>, en: Channel)
    ensures Strobes(a + b, en) == Strobes(a, en) + Strobes(b, en)
    decreases |a|
  {
    if a == [] {
      assert a + b == b;
    } else {
      assert (a + b)[0] == a[0];
      assert (a + b)[1..] == a[1..] + b;
      StrobesAppend(a[1..], b, en);
    }
  }

  /** With a dedicated enable pin, each nibble is latched by exactly one strobe. */
  lemma NibbleWritesStrobes(cfg: DisplayConfig, nibble: Byte, flag: nat)
    requires WellFormed(cfg) && SeparateEnable(cfg)
    ensures Strobes(NibbleWrites(cfg, nibble, flag), cfg.en) == 1
  {
    var w := NibbleWrites(cfg, nibble, flag);
    NibbleWritesLayout(cfg, nibble, flag);
    var k := 7;
    while k > 0
      invariant 0 <= k <= 7
      invariant Strobes(w[k..], cfg.en) == if k <= 5 then 1 else 0
    {
      k := k - 1;
      assert w[k..][1..] == w[k + 1..];
      if k < 4 {
        assert w[k].channel == cfg.data[k] && cfg.data[k] in cfg.data;
      }
    }
  }

  /** With a dedicated enable pin, a byte is latched by exactly two strobes. */
  lemma ByteWritesStrobes(cfg: DisplayConfig, data: Byte, flag: nat)
    requires WellFormed(cfg) && SeparateEnable(cfg)
    ensures Strobes(ByteWrites(cfg, data, flag), cfg.en) == 2
  {
    StrobesAppend(NibbleWrites(cfg, NibbleValue(data, 1), flag), NibbleWrites(cfg, NibbleValue(data, 0), flag), cfg.en);
    NibbleWritesStrobes(cfg, NibbleValue(data, 1), flag);
    NibbleWritesStrobes(cfg, NibbleValue(data, 0), flag);
  }

  /** The writes for the nibbles above `nibble`, highest first. */
  function SentBefore(cfg: DisplayConfig, data: Byte, flag: nat, nibble: int): seq<Write>
    requires WellFormed(cfg) && -1 <= nibble <= 1
  {
    if nibble == 1 then []
    else if nibble == 0 then NibbleWrites(cfg, NibbleValue(data, 1), flag)
    else ByteWrites(cfg, data, flag)
  }

  /** After the writes of nibble `nibble`, the trace holds every nibble down to it. */
  lemma SentStep(cfg: DisplayConfig, data: Byte, flag: nat, nibble: int, t0: seq<Write>, start: seq<Write>, t: seq<Write>)
    requires WellFormed(cfg) && 0 <= nibble <= 1
    requires start == t0 + SentBefore(cfg, data, flag, nibble)
    requires t == start + NibbleWrites(cfg, NibbleValue(data, nibble), flag)
    ensures t == t0 + SentBefore(cfg, data, flag, nibble - 1)
  {
  }

  /** Once both nibbles are sent, the trace holds the whole byte. */
  lemma SentAll(cfg: DisplayConfig, data: Byte, flag: nat)
    requires WellFormed(cfg)
    ensures SentBefore(cfg, data, flag, -1) == ByteWrites(cfg, data, flag)
  {
  }

  /** One more write of nibble `w` extends the written prefix by one position. */
  lemma ExtendPrefix(start: seq<Write>, w: seq<Write>, ch: nat, before: seq<Write>, after: seq<Write>)
    requires ch < |w| && before == start + w[..ch] && after == before + [w[ch]]
    ensures after == start + w[..ch + 1]
  {
    assert w[..ch + 1] == w[..ch] + [w[ch]];
  }

  /** The four data writes followed by RS, EN high and EN low are the whole nibble `w`. */
  lemma FinishNibble(start: seq<Write>, w: seq<Write>, mid: seq<Write>, t: seq<Write>)
    requires |w| == 7 && mid == start + w[..4] && t == mid + [w[4]] + [w[5]] + [w[6]]
    ensures t == start + w
  {
    assert w == w[..4] + [w[4], w[5], w[6]];
  }

  /**
   * Transmits `data` on `display` as two nibbles over the configured pins.
   * An invalid display or flag produces no writes.
   */
  method SendByte(bus: Bus, config: seq<DisplayConfig>, display: Display, data: Byte, flag: nat)
    requires |config| == DisplayCount
    requires forall d :: 0 <= d < |config| ==> WellFormed(config[d])
    modifies bus
    ensures display < DisplayCount && flag < FlagMax ==>
              bus.trace == old(bus.trace) + ByteWrites(config[display], data, flag)
    ensures !(display < DisplayCount && flag < FlagMax) ==> bus.trace == old(bus.trace)
  {
    if !(display < DisplayCount && flag < FlagMax) {
      return;
    }
    var cfg := config[display];
    var nibble: int := 1;
    while nibble >= 0
      invariant -1 <= nibble <= 1
      invariant bus.trace == old(bus.trace) + SentBefore(cfg, data, flag, nibble)
    {
      ghost var start := bus.trace;
      ghost var w := NibbleWrites(cfg, NibbleValue(data, nibble), flag);
      NibbleWritesLayout(cfg, NibbleValue(data, nibble), flag);
      var ch := 0;
      while ch < BitLen
        invariant 0 <= ch <= BitLen
        invariant bus.trace == start + w[..ch]
      {
        NibbleBit(data, nibble, ch);
        ghost var before := bus.trace;
        if BitSet(data, ch + 4 * nibble) {
          bus.ChannelWrite(cfg.data[ch], High);
        } else {
          bus.ChannelWrite(cfg.data[ch], Low);
        }
        ExtendPrefix(start, w, ch, before, bus.trace);
        ch := ch + 1;
      }
      ghost var mid := bus.trace;
      if flag == FlagData {
        bus.ChannelWrite(cfg.rs, Low);
      } else {
        bus.ChannelWrite(cfg.rs, High);
      }
      bus.ChannelWrite(cfg.en, High);
      bus.ChannelWrite(cfg.en, Low);
      FinishNibble(start, w, mid, bus.trace);
      SentStep(cfg, data, flag, nibble, old(bus.trace), start, bus.trace);
      nibble := nibble - 1;
    }
    SentAll(cfg, data, flag);
  }
}
