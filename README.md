# YRD0750RYF665F60 e-paper driver — a verified model

This project models the `epd-yrd0750ryf665f60` driver for an 800 x 480, four-colour
(black, white, red, yellow) e-paper panel. The driver has two layers, and both are modelled.

**Pixel packing.** Four pixels share a byte, two bits each.
- `QuadColor` gives each colour its 2-bit code through `bitmask`, and `from_bits` decodes a code.
- `line_bytes` and `buffer_len` size a raster.
- `set_pixel` writes one 2-bit field of a fixed-size byte buffer in place, after a bounds check.
- `Display` is a fixed-size buffer with `default`, `buffer`, `set_pixel` and `draw_iter`.

The two builds place the field differently: the hardware build puts pixel 0 in the high bits,
the simulator build in the low bits. The model makes the direction a parameter (`ShiftOrder`).

**Panel protocol.** `DisplayInterface` turns `cmd`, `data`, `cmd_with_data`, `data_x_times`,
`reset` and `wait_until_idle` into pin changes, SPI transfers, delays and busy waits. `Epd7in5`
chains those calls into the fixed opcode and payload series of each operation.

The hardware is a recording fake (`Hal.Hardware`) with a ghost log of events. Each SPI transfer
succeeds or fails as the device decides. Every operation is specified by a *plan*: the events it
performs when nothing fails. The contract `Emits(before, after, plan, r)` then says two things:
- on success the log grew by exactly the plan;
- on an SPI error the log grew by the plan up to the transfer that failed, that transfer is logged
  as failed with the very error returned, and nothing after it happened.

`Stream` reads a log the way the panel controller does: transferred bytes, each tagged as an
opcode or a data byte by the DC level in force. The stream lemmas state which bytes each operation
delivers.

Files:

| file | module | contents |
|---|---|---|
| `lib.dfy` | `Lib` | `u32`/`i32` ranges and casts, `buffer_len`, sequence concatenation |
| `color.dfy` | `Color` | `QuadColor`, `bitmask`, `from_bits`, `From<RawU2>`, `default_color_byte` |
| `graphics.dfy` | `Graphics` | `line_bytes`, `set_pixel` (on an `array<bv8>`), class `Display` |
| `hal.dfy` | `Hal` | the event log, the recording fake, `Emits`, the controller's byte stream |
| `interface.dfy` | `Interface` | `write` (three build paths), class `DisplayInterface` |
| `epd.dfy` | `Epd` | `Command` opcodes, the operation plans, class `Epd7in5`, the simulator decoding |

Where the code and its documentation differ, the model follows the code:
- The trait's documentation says `new` initialises the panel. `Epd7in5::new` only builds the
  interface and sends nothing, so `Epd.Epd7in5.New` leaves the log unchanged.
- The driver keeps no lifecycle state. Nothing rejects a frame operation after `sleep`, so the
  model has no "ready" or "sleeping" state either.

## Model

| member | source | states |
|---|---|---|
| Lib.AsI32 | src/graphics.rs:110 | `width as i32` keeps values below 2^31 and turns larger ones negative |
| Lib.UsizeAsI32 | src/yrd0750ryf665f60.rs:229-230 | the `usize as i32` cast keeps small values and is congruent to its input modulo 2^32 |
| Lib.BufferLen | src/lib.rs:40-42 | the length covers `width` bits per row and pads each row by less than one byte |
| Lib.BufferLenIsCeiling | src/lib.rs:32-42 | the length is `ceil(width / 8) * height` |
| Lib.BufferLenWholeBytes | src/lib.rs:40-42 | for a width divisible by 8 the length is `width / 8 * height` |
| Lib.BufferLenMonotone | src/lib.rs:40-42 | a wider or taller raster never needs fewer bytes |
| Color.Shift | src/color.rs:57-61 | the shift is even and at most 6; the simulator build puts pixel `pos % 4` in field `pos % 4`, the hardware build in field `3 - pos % 4` |
| Color.FromBits | src/color.rs:74-81 | `from_bits` is total: codes 0..3 decode to the colour with that code, anything above 3 to black |
| Color.FromBitsCode | src/color.rs:56-81 | decoding a colour's code gives the colour back |
| Color.FromRawU2 | src/color.rs:90-98 | the `RawU2` conversion agrees with `from_bits` on every code 0..3 and inverts the code |
| Color.Bitmask | src/color.rs:56-72 | value fits in a byte; mask and value are disjoint; the mask's zero bits are exactly `shift` and `shift + 1`; the value's field holds the colour's code |
| Color.Paint | src/graphics.rs:116-118 | `byte & mask \| value as u8` decodes to the colour at the pixel's field and keeps every other bit |
| Color.Default | src/color.rs:9-20 | the `#[default]` colour is white, whose 2-bit code is `01` |
| Color.DefaultColorByte | src/color.rs:48-50 | every field of `0x55` decodes to the default colour |
| Color.ShiftPeriodic | src/color.rs:57-61 | positions congruent modulo 4 get the same shift, mask and value |
| Color.ShiftDistinct | src/color.rs:57-61 | positions of different residue modulo 4 use different fields |
| Color.PaintOtherField | src/color.rs:57-69 | painting one pixel of a byte leaves the other three fields unchanged |
| Color.PaintTwice | src/graphics.rs:116-118 | painting the same pixel twice equals painting it with the second colour |
| Graphics.LineBytes | src/graphics.rs:8-10 | `line_bytes` is the ceiling of `width * bits_per_pixel / 8` |
| Graphics.IndexInBounds | src/graphics.rs:109-115 | for an in-frame pixel the index is below `line_bytes(width, 2) * height` |
| Graphics.AddressInjective | src/graphics.rs:114-116 | two in-frame pixels with the same byte and field are the same pixel |
| Graphics.SetPixelOutside | src/graphics.rs:109-112 | an out-of-frame pixel changes no byte |
| Graphics.SetPixelLocal | src/graphics.rs:114-118 | an in-frame write changes only the pixel's byte, and in it only the pixel's two bits |
| Graphics.SetThenGet | src/graphics.rs:105-118 | a pixel written in the frame reads back as the colour written |
| Graphics.SetPixelKeepsOthers | src/graphics.rs:105-118 | writing a pixel leaves the colour of every other pixel unchanged |
| Graphics.SetPixelIdempotent | src/graphics.rs:116-118 | writing the same pixel twice equals writing it once |
| Graphics.DrawLastWins | src/graphics.rs:56-64 | after `draw_iter` the last in-frame write to a pixel decides its colour |
| Graphics.DrawKeepsUntouched | src/graphics.rs:56-64 | after `draw_iter` a pixel no in-frame write addresses keeps its colour |
| Graphics.DefaultBufferIsWhite | src/graphics.rs:37-41 | every pixel of a buffer filled with `0x55` reads as the default colour |
| Graphics.BufferLenCoversRows | src/lib.rs:40-42 | `buffer_len(w, 2 * h)` is at least `line_bytes(w, 2) * h`, so such a display holds every index `set_pixel` computes |
| Graphics.SetBufferPixel | src/graphics.rs:99-119 | the in-place write leaves the array equal to `WithPixel` of its old contents |
| Graphics.Display.Default | src/graphics.rs:37-41 | a fresh buffer of `BYTECOUNT` bytes, each `0x55` |
| Graphics.Display.Buffer | src/graphics.rs:88-90 | returns exactly the stored bytes, all of them, changing nothing |
| Graphics.Display.SetPixel | src/graphics.rs:93-95 | the buffer becomes `WithPixel` of its old contents |
| Graphics.Display.DrawIter | src/graphics.rs:56-64 | the buffer becomes `set_pixel` applied to every pixel in order |
| Interface.Chunks | src/interface.rs:82 | the chunks concatenate back to the data; each has 1 to 4096 bytes and all but the last exactly 4096 |
| Interface.WriteStream | src/interface.rs:80-91 | on both sending paths the controller receives exactly the data, and the DC level is unchanged |
| Interface.WriteKeepsDc | src/interface.rs:80-91 | `write` never moves the DC line, on any path |
| Interface.CmdDataStream | src/interface.rs:36-63 | `cmd` delivers one opcode byte and leaves DC low; `data` delivers the payload as data and leaves DC high; `cmd_with_data` delivers the opcode then the payload |
| Interface.DataXTimesStream | src/interface.rs:66-77 | `data_x_times(value, n)` delivers `n` data bytes equal to `value` |
| Interface.DisplayInterface.constructor | src/interface.rs:26-33 | takes the pins and drives nothing |
| Interface.DisplayInterface.Write | src/interface.rs:80-91 | performs the path's plan: one transfer per chunk, one transfer, or nothing; stops at the first failed chunk |
| Interface.DisplayInterface.Cmd | src/interface.rs:36-43 | DC low, then one transfer of the opcode byte; its error is returned |
| Interface.DisplayInterface.Data | src/interface.rs:46-52 | DC high, then the write of the data; its error is returned unchanged |
| Interface.DisplayInterface.CmdWithData | src/interface.rs:55-63 | the command then the data; a failed command is followed by neither DC high nor data |
| Interface.DisplayInterface.DataXTimes | src/interface.rs:66-77 | DC high, then `repetitions` one-byte writes of `value`, stopping at the first that fails |
| Interface.DisplayInterface.WaitUntilIdle | src/interface.rs:94-103 | one wait for the busy line at the level the polarity gives; always succeeds |
| Interface.DisplayInterface.Reset | src/interface.rs:108-120 | reset high, `initial_delay`, reset low, `duration`, reset high, 200000 us; always succeeds |
| Epd.Command.Address | src/yrd0750ryf665f60.rs:41-112 | `address()` is the variant's discriminant: the opcode names that command back |
| Epd.AddressDistinct | src/yrd0750ryf665f60.rs:41-112 | no two commands share an opcode |
| Epd.InitOpcodes | src/yrd0750ryf665f60.rs:41-112 | the opcodes `init` sends: 0x4D, 0x00, 0x50, 0x65, 0xE3, 0xE9, 0x30, 0x04 |
| Epd.FrameOpcodes | src/yrd0750ryf665f60.rs:41-112 | the opcodes the other operations send: 0x02, 0x07, 0x10, 0x11, 0x12, 0x04 |
| Epd.FrameGeometry | src/yrd0750ryf665f60.rs:24-34 | `buffer_len(800, 960)` is 96000; it equals the `update_frame` slice bound, the `clear_frame` repetition count and 200 bytes per row times 480 rows |
| Epd.Display7in5Fits | src/yrd0750ryf665f60.rs:24-29 | no in-frame `set_pixel` on a `Display7in5` indexes out of bounds |
| Epd.InitSteps | src/yrd0750ryf665f60.rs:134-162 | the plan of `init`, step by step: reset(20000, 20000), wait, 0x4D[0x78], 0x00[0x2F, 0x29], 0x50[0x37], 0x65[0, 0, 0, 0], 0xE3[0x88], 0xE9[0x01], 0x30[0x08], cmd 0x04, wait |
| Epd.SleepSteps | src/yrd0750ryf665f60.rs:205-215 | the plan of `sleep`: wait, 0x02[0x00], wait, 0x07[0xA5] |
| Epd.UpdateSteps | src/yrd0750ryf665f60.rs:242-252 | the plan of `update_frame`: wait, then opcode 0x10 with the first 96000 bytes of the buffer |
| Epd.DisplaySteps | src/yrd0750ryf665f60.rs:269-276 | the plan of `display_frame`: 0x12[0x00], then wait |
| Epd.ClearSteps | src/yrd0750ryf665f60.rs:289-304 | the plan of `clear_frame`: wait, cmd 0x10, 96000 writes of 0x55, cmd 0x11, cmd 0x12, and no final wait |
| Epd.PlanStream | src/yrd0750ryf665f60.rs:134-304 | each operation delivers the opcodes and payloads of its steps, in order, whatever the DC level before it |
| Epd.UpdateStream | src/yrd0750ryf665f60.rs:242-252 | `update_frame` delivers opcode 0x10 and then exactly the first 96000 buffer bytes as data; later bytes are never sent |
| Epd.DisplayStream | src/yrd0750ryf665f60.rs:269-276 | `display_frame` delivers opcode 0x12 with the one data byte 0x00 |
| Epd.UpdateAndDisplayStream | src/yrd0750ryf665f60.rs:278-287 | `update_and_display_frame` delivers the frame, opcode 0x04, then opcode 0x12 with data 0x00 |
| Epd.ClearWire | src/yrd0750ryf665f60.rs:289-304 | the bytes of `clear_frame` are opcode 0x10, the 96000 bytes of a blank display as data, then opcodes 0x11 and 0x12 |
| Epd.ClearIsBlankUpdate | src/yrd0750ryf665f60.rs:289-304 | `clear_frame` delivers the same bytes as `update_frame` of a default display, followed by opcodes 0x11 and 0x12 |
| Epd.FieldShiftIsLsbFirst | src/yrd0750ryf665f60.rs:222 | the simulator reads pixel `x` at the field where the simulator build's `set_pixel` writes it |
| Epd.FrameColors | src/yrd0750ryf665f60.rs:221-226 | four colours per byte; colour `i` decodes the field of byte `i / 4` at shift `2 * (i % 4)` |
| Epd.FramePixels | src/yrd0750ryf665f60.rs:228-232 | four pixels per byte of the buffer |
| Epd.FramePixelsDistinct | src/yrd0750ryf665f60.rs:228-232 | in a buffer no longer than a frame, no two decoded pixels share a position |
| Epd.FrameDecodes | src/yrd0750ryf665f60.rs:221-231 | for every pixel whose byte is in the buffer, the pixel drawn at `(x, y)` has the colour stored for it |
| Epd.SimulatorShowsDrawn | src/yrd0750ryf665f60.rs:221-231 | after drawing on a blank `Display7in5`, the simulator shows at each in-frame position the colour of the last write there |
| Epd.Epd7in5.New | src/yrd0750ryf665f60.rs:176-199 | builds the interface and sends nothing |
| Epd.Epd7in5.Width | src/yrd0750ryf665f60.rs:306-308 | the width is a multiple of 4, and its rows of `width / 4` bytes times the height fill the frame |
| Epd.Epd7in5.Height | src/yrd0750ryf665f60.rs:310-312 | the height times 200 bytes per row is the frame size |
| Epd.Epd7in5.WaitUntilIdle | src/yrd0750ryf665f60.rs:314-317 | waits for the busy line to go high and always succeeds |
| Epd.Epd7in5.Init | src/yrd0750ryf665f60.rs:134-162 | performs the plan of `init`; any SPI error aborts it at that step |
| Epd.Epd7in5.WakeUp | src/yrd0750ryf665f60.rs:201-203 | performs the same plan as `init` |
| Epd.Epd7in5.Sleep | src/yrd0750ryf665f60.rs:205-215 | performs the plan of `sleep`; any SPI error aborts it |
| Epd.Epd7in5.UpdateFrame | src/yrd0750ryf665f60.rs:242-252 | performs the plan of `update_frame`; needs at least 96000 bytes, or the slice panics |
| Epd.Epd7in5.DisplayFrame | src/yrd0750ryf665f60.rs:269-276 | performs the plan of `display_frame` |
| Epd.Epd7in5.UpdateAndDisplayFrame | src/yrd0750ryf665f60.rs:278-287 | performs the upload, cmd 0x04 with no wait before it, then the refresh; an error aborts the rest |
| Epd.Epd7in5.ClearFrame | src/yrd0750ryf665f60.rs:289-304 | performs the plan of `clear_frame`; an error in any of the 96000 writes aborts it |

## Left out

- `async`/`await` and real time are not modelled. A delay is a log event carrying its length, and
  a busy wait is one event. The model does not capture whether the busy line ever reaches its level.
- Pin errors are not modelled. The driver discards them (`let _ =`), so the fake's pin methods
  report nothing.
- Build selection is a parameter. `WritePath` stands for the `cfg!` tests in `write`; a Linux
  host takes the chunked path even with the `simulator` feature on, because `write` checks
  `target_os = "linux"` before the `simulator` feature.
- Epd.Epd7in5.UpdateFrame: models only the hardware build's body. It requires a sending path,
  since that body is not compiled into the simulator build.
- Epd.Epd7in5.DisplayFrame: the same, for the hardware build's body.
- Epd.Epd7in5.UpdateAndDisplayFrame: the same, for the hardware builds of its two callees.
- The simulator build's `update_frame` is modelled as its decoding only (`FramePixels`). The
  drawing into the `SimulatorDisplay` and its `expect` are not modelled.
- The simulator build's `display_frame` (a desktop window) is not modelled.
- Epd.FrameDecodes: covers only positions below 2^31. `FramePixels` does write out the `usize`
  to `i32` cast (`UsizeAsI32`), but the lemma requires `y < 0x8000_0000`, so it says nothing
  about pixels whose coordinate the cast wraps.
- The `Rgb888` and `BinaryColor` conversions (src/color.rs:101-137) are not modelled. They
  approximate display colours with library constants.
- `Display::size()` (src/graphics.rs:75-77) is not modelled. It only returns the two constants.
- Graphics.SetBufferPixel: requires `Fits`, so it leaves out the out-of-bounds panic of
  `buffer[index]` (src/graphics.rs:118). The buffer length is not tied to
  `line_bytes(width, 2) * height`, so an in-frame pixel can index past a short buffer (length
  10, width 800, pixel (0, 1)). `Display7in5Fits` shows this cannot happen for `Display7in5`.
- Graphics.Display.SetPixel: requires `Fits`, leaving out the same panic for a `Display` whose
  `BYTECOUNT` is below `line_bytes(WIDTH, 2) * HEIGHT`; `Display7in5Fits` rules it out for
  `Display7in5`.
- Graphics.Display.DrawIter: requires `AllFit` of every pixel, leaving out the same panic part way
  through the iterator; `Display7in5Fits` rules it out for `Display7in5`.
- Lib.BufferLen: uses unbounded integers, so it does not model the overflow of
  `(width + 7) / 8 * height` in a 32-bit `usize` (src/lib.rs:40-42): a release build wraps
  `buffer_len(16, 2^31)` to 0, and a debug build panics. `BufferLenMonotone` and
  `BufferLenCoversRows` hold only for unbounded integers. The crate's one use,
  `buffer_len(800, 960)` (src/yrd0750ryf665f60.rs:27), is a const generic argument evaluated at
  compile time, where an overflow would be a compile error; its value is 96 000.
- Graphics.LineBytes: uses unbounded integers, so it does not model the overflow or wrap of
  `width as usize * bits_per_pixel + 7` in a 32-bit `usize` (src/graphics.rs:9).
- Graphics.PixelIndex: uses unbounded integers, so it does not model the overflow or wrap of
  `y as usize * line_bytes(..)` in a 32-bit `usize` (src/graphics.rs:114-115), e.g. width 2^20
  and pixel (0, 2^14). For `Display7in5` every index is below 96 000, so neither overflow arises.
- Graphics.Display.Buffer: returns a copy of the bytes, where the source returns a borrowed slice.
- The unused `Command` variants are modelled as opcodes only. No operation sends them.
- The stream of `init` and `sleep` is stated generally, not as a byte list: `PlanStream` equates
  it with the bytes of the `WireStep` table.
- `traits.rs` (the trait declarations) is not part of this model. Neither are the example programs.
