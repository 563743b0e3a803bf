# Character LCD driver: producer-side command queue, modelled in Dafny

This project models the producer side of a driver for HD44780-style
character LCDs on a 4-bit bus (`src/lcd_display.c`). Each display owns a
bounded FIFO of 40 bytes. Commands enter that queue with their most
significant bit set, which tags them as commands rather than character data.
`Init` empties every queue and queues a four-command start-up sequence.
`Clear` queues the clear command. The byte transmitter sends a byte as two
nibbles, high nibble first, and latches each nibble with a strobe on the
enable pin.

Modules:

- `CircBuffer` (`circ_buffer.dfy`): the circular buffer as an abstract bounded
  FIFO. The record holds the queued bytes, oldest first, and a fixed
  capacity. `Enqueue` fails on a full queue and then leaves it unchanged.
- `Dio` (`dio.dfy`): digital outputs. A channel write is recorded as an event
  appended to a trace held by a `Bus` object.
- `LcdDisplayCfg` (`lcd_display_cfg.dfy`): the display count (1), the buffer
  size (40), the interface width (4) and the per-display pin record.
- `LcdDisplay` (`lcd_display.dfy`):
  - the command constants, the start-up table and the tag-bit codec;
  - the `Driver` class, whose `buffers` array stands for the module's
    per-display buffer array, with `SetCommand`, `Clear` and `Init`;
  - `SendByte`, a nested loop of channel writes proved against the
    specification function `ByteWrites`, plus lemmas about that function.

Bytes are `bv8`, so `Command | 0x80` and `Data & (1 << k)` are written as in
the source. Display handles and the data/command flag are natural numbers, so
invalid handles and flags can be passed and their error paths are modelled.
The state of the buffers before `Init` is whatever the constructor is given:
any queues of capacity 40 holding at most 40 bytes.

The driver's code makes these choices:

- The code uses the tag-bit encoding, not an escape byte.
- A byte that does not fit in a full queue is dropped silently. No failure is
  reported to the caller of `SetCommand`, `Clear` or `Init`.
- `Clear` only queues the clear command. `lcd_display.c` keeps no cursor
  state to reset.

## Model

| member | source | states |
|---|---|---|
| CircBuffer.Create | src/lcd_display.c:108-112 | a freshly created buffer is empty and has exactly `capacity` free slots |
| CircBuffer.Enqueue | src/lcd_display.c:148-149 | success exactly when a slot is free; on success the byte is appended at the back and nothing already queued changes; on failure the queue is unchanged; capacity never changes and the bound `|items| <= capacity` is preserved |
| CircBuffer.EnqueueAll | src/lcd_display.c:115-121 | a run of enqueues appends, in order, the longest prefix of the input that fits and drops the rest; the capacity bound is preserved |
| CircBuffer.EnqueueAllSnoc | src/lcd_display.c:117-120 | one more enqueue after a run gives the same queue as the longer run |
| CircBuffer.FullStaysFull | src/lcd_display.c:148-153 | once a queue is full, further enqueues leave it unchanged |
| Dio.Bus.ChannelWrite | src/lcd_display.c:174 | a channel write appends exactly one (channel, level) event to the trace |
| LcdDisplay.Tag | src/lcd_display.c:147 | the queued form of a command has bit 7 set and the command's low 7 bits; it equals the command exactly when the command already had bit 7 set |
| LcdDisplay.TagEqual | src/lcd_display.c:62-65 | two commands get the same queued byte if and only if their low 7 bits agree |
| LcdDisplay.TagAll | src/lcd_display.c:117-120 | tagging a command list keeps its length and order, and every byte is a command carrying the matching payload |
| LcdDisplay.StartupStep | src/lcd_display.c:117-120 | the start-up loop begins from an empty 40-byte queue; queueing command `cmd` extends the queue built from the commands before it; after all four commands the queue is the start-up queue |
| LcdDisplay.StartupQueueContents | src/lcd_display.c:76-82 | on an empty 40-byte queue the start-up sequence yields exactly `[0x81, 0xA8, 0x8C, 0x86]`, so none of the four enqueues fails |
| LcdDisplay.Driver.constructor | src/lcd_display.c:66-71 | one queue per display, each of capacity 40 and holding at most 40 bytes |
| LcdDisplay.Driver.SetCommand | src/lcd_display.c:136-154 | on a valid handle with free space, exactly `Command \| 0x80` is appended at the back of that display's queue; on an invalid handle or a full queue no queue changes; other displays' queues never change; no queue exceeds 40 bytes |
| LcdDisplay.Driver.Clear | src/lcd_display.c:124-134 | on a valid handle with free space, exactly `0x81` is appended; otherwise nothing changes; other displays are untouched |
| LcdDisplay.Driver.Init | src/lcd_display.c:94-122 | with a null configuration no queue changes; otherwise every display's queue is exactly `[0x81, 0xA8, 0x8C, 0x86]`, whatever it held before |
| LcdDisplay.NibbleBit | src/lcd_display.c:172 | bit `ch` of nibble `n` (upper four bits for `n = 1`, lower four for `n = 0`) is bit `ch + 4n` of the byte |
| LcdDisplay.ByteWritesLayout | src/lcd_display.c:168-196 | a byte is fourteen writes, high nibble first: in the first nibble data line `i` carries bit `i + 4`, in the second bit `i`; each nibble sets RS by the flag and strobes EN high then low |
| LcdDisplay.ByteWritesRoundTrip | src/lcd_display.c:168-180 | the eight data-line levels of a transmission reassemble the transmitted byte exactly |
| LcdDisplay.NibbleWritesStrobes | src/lcd_display.c:191-195 | with an enable pin not shared with RS or the data lines, a nibble drives EN high exactly once |
| LcdDisplay.ByteWritesStrobes | src/lcd_display.c:168-196 | with such an enable pin, a byte is latched by exactly two strobes |
| LcdDisplay.SendByte | src/lcd_display.c:156-197 | with a valid display and flag, the trace grows by exactly the fourteen writes of `ByteWrites`; with an invalid display or flag there are no writes |

## Left out

- The electrical effect of `Dio_ChannelWrite` is left out, because it is a hardware call. A channel write is modelled only as an event in a trace.
- `LcdDisplay_Delay` is left out. It increments a local variable and has no observable effect.
- The ring-buffer internals (head and tail indices, the backing array `LcdDisplayData`) are not modelled. `circ_buffer.h` is not part of this model, so the buffer is modelled by its FIFO contract only.
- LcdDisplay.Driver.constructor: does not model the zero-initialised `CircBuff_t` state before `Init`, because its meaning depends on `circ_buffer.h`; the constructor takes any bounded queues of capacity 40 instead.
- `LcdDisplay_Update`, `LcdDisplay_SetData`, `LcdDisplay_SetCursor` and `LcdDisplay_CreateChar` are declared in `src/lcd_display.h` but not defined in the code, so they are left out. This leaves out the dispatcher, the cursor and line-wrap tracker and the DDRAM address table; these pieces are also why the model has no dequeue.
- The static configuration table and `LcdDisplay_GetConfig` are constant data, so they are left out.
- The global `gConfig` pointer is left out, because `Init` never assigns it. `SendByte` takes the configuration table as a parameter instead.
- The CGRAM character index constants are left out. They have no behaviour.
- `SendByte` is static and is called by nothing in `lcd_display.c`; its only plausible caller, `LcdDisplay_Update`, is declared but not defined, so the model does not connect it to the queues.
